/**
 * The contact list rules shared by onboarding and settings: a contact is added
 * only with a non-blank name and phone while fewer than ten exist, with its
 * fields trimmed; removal filters by id; onboarding may continue only with at
 * least one police or emergency-number contact.
 */
module ContactForm {
  import opened Wrappers
  import opened Strings
  import opened Storage
  import opened Lists

  const MAX_CONTACTS: nat := 10

  /** The add guard: trimmed name and phone non-empty and fewer than ten contacts. */
  predicate CanAdd(name: string, phone: string, count: nat)
    ensures CanAdd(name, phone, count) <==> !AllSpace(name) && !AllSpace(phone) && count < MAX_CONTACTS
  {
    TrimEmptyIff(name);
    TrimEmptyIff(phone);
    Trim(name) != "" && Trim(phone) != "" && count < MAX_CONTACTS
  }

  /** `s.trim() || undefined`: the trimmed text, or nothing when it is blank. */
  function Optional(s: string): (r: Option<string>)
    ensures r.None? <==> AllSpace(s)
    ensures r.Some? ==> r.value == Trim(s) && r.value != ""
  {
    TrimEmptyIff(s);
    if Trim(s) == "" then None else Some(Trim(s))
  }

  /** The contact the form builds; it has no Telegram username. */
  function NewContact(id: string, name: string, phone: string, isPolice: bool, whatsapp: string): (c: EmergencyContact)
    ensures c.id == id && c.name == Trim(name) && c.phone == Trim(phone) && c.isPolice == isPolice
    ensures c.whatsapp == Optional(whatsapp) && c.telegram == None
  {
    EmergencyContact(id, Trim(name), Trim(phone), isPolice, Optional(whatsapp), None)
  }

  /**
   * `addContact`: the list with the new contact appended when the guard holds,
   * otherwise the list unchanged.
   */
  function AddContact(contacts: seq<EmergencyContact>, id: string, name: string, phone: string,
                      isPolice: bool, whatsapp: string): (r: seq<EmergencyContact>)
    ensures CanAdd(name, phone, |contacts|) ==> r == contacts + [NewContact(id, name, phone, isPolice, whatsapp)]
    ensures !CanAdd(name, phone, |contacts|) ==> r == contacts
  {
    if CanAdd(name, phone, |contacts|) then contacts + [NewContact(id, name, phone, isPolice, whatsapp)]
    else contacts
  }

  /** The list never grows past ten, and an added contact never has a blank name or phone. */
  lemma AddKeepsBounds(contacts: seq<EmergencyContact>, id: string, name: string, phone: string,
                       isPolice: bool, whatsapp: string)
    requires |contacts| <= MAX_CONTACTS
    ensures |AddContact(contacts, id, name, phone, isPolice, whatsapp)| <= MAX_CONTACTS
    ensures |AddContact(contacts, id, name, phone, isPolice, whatsapp)| == |contacts| + 1 <==>
              !AllSpace(name) && !AllSpace(phone) && |contacts| < MAX_CONTACTS
  {
    TrimEmptyIff(name);
    TrimEmptyIff(phone);
  }

  /** A contact's id, the key that removal (`contacts.filter((c) => c.id !== id)`) compares. */
  function ContactId(c: EmergencyContact): string
  {
    c.id
  }

  /** One of the emergency numbers: police, fire brigade, child line, women's line. */
  predicate IsEmergencyNumber(phone: string)
    ensures IsEmergencyNumber(phone) ==> |phone| == 3 && DigitsOnly(phone) == phone
  {
    phone == POLICIA || phone == BOMBEIROS || phone == CRIANCA || phone == MULHER
  }

  /** A contact that counts as a police contact. */
  predicate Qualifies(c: EmergencyContact)
  {
    c.isPolice || IsEmergencyNumber(c.phone)
  }

  /** `canProceedContacts`: at least one contact, and some contact qualifies. */
  predicate CanProceedContacts(contacts: seq<EmergencyContact>)
    ensures CanProceedContacts(contacts) <==> exists c :: c in contacts && Qualifies(c)
  {
    |contacts| >= 1 && exists i :: 0 <= i < |contacts| && Qualifies(contacts[i])
  }

  /** Adding a police contact (or one with an emergency number) opens the gate. */
  lemma AddingQualifyingContactProceeds(contacts: seq<EmergencyContact>, id: string, name: string,
                                        phone: string, isPolice: bool, whatsapp: string)
    requires CanAdd(name, phone, |contacts|)
    requires isPolice || IsEmergencyNumber(Trim(phone))
    ensures CanProceedContacts(AddContact(contacts, id, name, phone, isPolice, whatsapp))
  {
    var r := AddContact(contacts, id, name, phone, isPolice, whatsapp);
    assert Qualifies(r[|contacts|]);
  }

  /** The gate stays shut while no contact qualifies, however many there are. */
  lemma NoQualifyingContactBlocks(contacts: seq<EmergencyContact>)
    requires forall c :: c in contacts ==> !c.isPolice && !IsEmergencyNumber(c.phone)
    ensures !CanProceedContacts(contacts)
  {
    if exists i :: 0 <= i < |contacts| && Qualifies(contacts[i]) {
      var i :| 0 <= i < |contacts| && Qualifies(contacts[i]);
      assert contacts[i] in contacts;
    }
  }

  /**
   * Removal does not look at the gate: removing the only police contact leaves a
   * list that would no longer let onboarding continue.
   */
  lemma RemovalCanCloseGate()
    ensures var police := EmergencyContact("p", "Policia", "113", true, None, None);
            var friend := EmergencyContact("f", "Amiga", "923000000", false, None, None);
            CanProceedContacts([police, friend]) && !CanProceedContacts(WithoutId([police, friend], ContactId, "p"))
  {
    var police := EmergencyContact("p", "Policia", "113", true, None, None);
    var friend := EmergencyContact("f", "Amiga", "923000000", false, None, None);
    assert Qualifies([police, friend][0]);
    var r := WithoutId([police, friend], ContactId, "p");
    assert [police, friend][..1] == [police];
    assert [police][..0] == [];
    assert WithoutId([police], ContactId, "p") == [];
    assert r == [friend];
    assert !IsEmergencyNumber(friend.phone) by {
      assert friend.phone[0] == '9';
    }
  }
}
