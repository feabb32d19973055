/**
 * The settings screen: adding and removing emergency contacts (saved through the
 * application state) and changing the PIN with a confirmation field.
 */
module Settings {
  import opened Wrappers
  import opened Strings
  import opened Storage
  import opened Lists
  import opened ContactForm
  import opened AppContext

  const PIN_LENGTH: nat := 4
  const PIN_MISMATCH: string := "Os PINs não coincidem"

  class SettingsScreen {
    const app: AppState
    var showAddContact: bool
    var contactName: string
    var contactPhone: string
    var contactIsPolice: bool
    var contactWhatsapp: string
    var showChangePin: bool
    var newPin: string
    var confirmPin: string
    /** The alert messages shown so far. */
    var alerts: seq<string>

    constructor (app: AppState)
      ensures this.app == app && !showAddContact && !showChangePin
      ensures contactName == "" && contactPhone == "" && !contactIsPolice && contactWhatsapp == ""
      ensures newPin == "" && confirmPin == "" && alerts == []
    {
      this.app := app;
      showAddContact, showChangePin := false, false;
      contactName, contactPhone, contactIsPolice, contactWhatsapp := "", "", false, "";
      newPin, confirmPin, alerts := "", "", [];
    }

    /**
     * `addContact`: with a non-blank name and phone and fewer than ten contacts,
     * saves the list with the trimmed contact appended, clears the form and hides
     * it; otherwise nothing changes and nothing is saved.
     */
    method AddContact(id: string, writeFails: bool)
      modifies this, app, app.store
      ensures CanAdd(old(contactName), old(contactPhone), |old(app.contacts)|) ==>
        && app.Fields() == old(app.Fields()).(contacts := old(app.contacts)
             + [NewContact(id, old(contactName), old(contactPhone), old(contactIsPolice), old(contactWhatsapp))])
        && app.store.data == SetItem(old(app.store.data), CONTACTS_KEY, ContactsV(app.contacts), writeFails)
        && app.store.log == old(app.store.log) + [CONTACTS_KEY]
        && contactName == "" && contactPhone == "" && !contactIsPolice && contactWhatsapp == ""
        && !showAddContact
      ensures !CanAdd(old(contactName), old(contactPhone), |old(app.contacts)|) ==>
        && app.Fields() == old(app.Fields())
        && app.store.data == old(app.store.data) && app.store.log == old(app.store.log)
        && contactName == old(contactName) && contactPhone == old(contactPhone)
        && contactIsPolice == old(contactIsPolice) && contactWhatsapp == old(contactWhatsapp)
        && showAddContact == old(showAddContact)
      ensures showChangePin == old(showChangePin) && newPin == old(newPin) && confirmPin == old(confirmPin)
      ensures alerts == old(alerts)
    {
      if !CanAdd(contactName, contactPhone, |app.contacts|) {
        return;
      }
      var c := NewContact(id, contactName, contactPhone, contactIsPolice, contactWhatsapp);
      app.SetContacts(app.contacts + [c], writeFails);
      contactName, contactPhone, contactIsPolice, contactWhatsapp := "", "", false, "";
      showAddContact := false;
    }

    /**
     * `removeContact`: saves the list without the contacts of that id. Nothing
     * checks that a police contact remains.
     */
    method RemoveContact(id: string, writeFails: bool)
      modifies app, app.store
      ensures app.Fields() == old(app.Fields()).(contacts := WithoutId(old(app.contacts), ContactId, id))
      ensures app.store.data == SetItem(old(app.store.data), CONTACTS_KEY, ContactsV(app.contacts), writeFails)
      ensures app.store.log == old(app.store.log) + [CONTACTS_KEY]
    {
      app.SetContacts(WithoutId(app.contacts, ContactId, id), writeFails);
    }

    /**
     * `handleChangePin`: nothing unless the new PIN is four UTF-16 units long; a
     * different confirmation shows an alert and keeps the stored PIN; a matching
     * one saves the new PIN, clears both fields and hides the form.
     */
    method HandleChangePin(writeFails: bool)
      modifies this, app, app.store
      ensures Utf16Length(old(newPin)) != PIN_LENGTH ==>
        app.Fields() == old(app.Fields()) && app.store.log == old(app.store.log)
        && app.store.data == old(app.store.data)
        && alerts == old(alerts) && newPin == old(newPin) && confirmPin == old(confirmPin)
        && showChangePin == old(showChangePin)
      ensures Utf16Length(old(newPin)) == PIN_LENGTH && old(newPin) != old(confirmPin) ==>
        app.Fields() == old(app.Fields()) && app.store.log == old(app.store.log)
        && app.store.data == old(app.store.data)
        && alerts == old(alerts) + [PIN_MISMATCH] && newPin == old(newPin) && confirmPin == old(confirmPin)
        && showChangePin == old(showChangePin)
      ensures Utf16Length(old(newPin)) == PIN_LENGTH && old(newPin) == old(confirmPin) ==>
        app.Fields() == old(app.Fields()).(pin := Some(old(newPin)))
        && app.store.data == SetItem(old(app.store.data), PIN_KEY, TextV(old(newPin)), writeFails)
        && app.store.log == old(app.store.log) + [PIN_KEY]
        && alerts == old(alerts) && newPin == "" && confirmPin == "" && !showChangePin
      ensures contactName == old(contactName) && contactPhone == old(contactPhone)
      ensures contactIsPolice == old(contactIsPolice) && contactWhatsapp == old(contactWhatsapp)
      ensures showAddContact == old(showAddContact)
    {
      if Utf16Length(newPin) != PIN_LENGTH {
        return;
      }
      if newPin != confirmPin {
        alerts := alerts + [PIN_MISMATCH];
        return;
      }
      app.SetPin(newPin, writeFails);
      newPin, confirmPin := "", "";
      showChangePin := false;
    }
  }
}
