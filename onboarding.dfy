/**
 * The onboarding wizard: welcome, age range, province and city, PIN, PIN
 * confirmation, emergency contacts and disguise, then a finish that saves
 * everything and opens the application unlocked.
 *
 * The 2000 ms timer that clears the PIN mismatch message is the
 * `PinErrorClearFires` event; contact ids are inputs.
 */
module Onboarding {
  import opened Wrappers
  import opened Strings
  import opened Storage
  import opened Lists
  import opened ContactForm
  import opened AppContext

  datatype Step = Welcome | Age | Location | Pin | PinConfirm | Contacts | Disguise | Done

  /** The fixed order of steps used by the back button; `done` is not part of it. */
  const STEPS: seq<Step> := [Welcome, Age, Location, Pin, PinConfirm, Contacts, Disguise]

  const PIN_MISMATCH: string := "PINs não coincidem. Tente novamente."

  /** `steps.indexOf(step)`: the position of the step, or -1 when it is not listed. */
  function StepIndex(s: Step): (i: int)
    ensures -1 <= i < |STEPS|
    ensures i >= 0 ==> STEPS[i] == s
    ensures i == -1 <==> s == Done
  {
    match s
    case Welcome => 0
    case Age => 1
    case Location => 2
    case Pin => 3
    case PinConfirm => 4
    case Contacts => 5
    case Disguise => 6
    case Done => -1
  }

  /** Where the back button leads: the previous listed step, or nowhere when there is none. */
  function PreviousStep(s: Step): (r: Step)
    ensures StepIndex(s) > 0 ==> StepIndex(r) == StepIndex(s) - 1
    ensures StepIndex(s) <= 0 ==> r == s
  {
    var i := StepIndex(s);
    if i > 0 then STEPS[i - 1] else s
  }

  /** Back walks the list one step at a time and stops at `welcome`; it ignores `done`. */
  lemma BackGoesToPrevious()
    ensures forall i :: 1 <= i < |STEPS| ==> PreviousStep(STEPS[i]) == STEPS[i - 1]
    ensures PreviousStep(Welcome) == Welcome && PreviousStep(Done) == Done
  {
    forall i | 1 <= i < |STEPS| ensures PreviousStep(STEPS[i]) == STEPS[i - 1] {
      assert StepIndex(STEPS[i]) == i;
    }
  }

  /** The steps on which the back button (and the progress bar) is drawn. */
  predicate ShowsBack(s: Step)
  {
    s != Welcome && s != Pin && s != PinConfirm
  }

  /** The keys `finishOnboarding` writes. */
  const FINISH_KEYS: set<string> := {PIN_KEY, USER_PROFILE_KEY, CONTACTS_KEY, ACTIVE_DISGUISE_KEY, ONBOARDING_COMPLETE_KEY}

  /** The store after `finishOnboarding`'s writes, in their order; a key in `failing` fails to write. */
  function FinishWrites(data: map<string, Cell>, pin: string, profile: UserProfile,
                        contacts: seq<EmergencyContact>, disguise: DisguiseType,
                        failing: set<string>): (r: map<string, Cell>)
    ensures PIN_KEY !in failing ==> PIN_KEY in r && r[PIN_KEY] == Json(TextV(pin))
    ensures USER_PROFILE_KEY !in failing ==> USER_PROFILE_KEY in r && r[USER_PROFILE_KEY] == Json(ProfileV(profile))
    ensures CONTACTS_KEY !in failing ==> CONTACTS_KEY in r && r[CONTACTS_KEY] == Json(ContactsV(contacts))
    ensures ACTIVE_DISGUISE_KEY !in failing ==> ACTIVE_DISGUISE_KEY in r && r[ACTIVE_DISGUISE_KEY] == Json(DisguiseV(disguise))
    ensures ONBOARDING_COMPLETE_KEY !in failing ==> ONBOARDING_COMPLETE_KEY in r && r[ONBOARDING_COMPLETE_KEY] == Json(BoolV(true))
    ensures forall k :: k !in FINISH_KEYS || k in failing ==> (k in r <==> k in data) && (k in data ==> r[k] == data[k])
  {
    var d1 := SetItem(data, PIN_KEY, TextV(pin), PIN_KEY in failing);
    var d2 := SetItem(d1, USER_PROFILE_KEY, ProfileV(profile), USER_PROFILE_KEY in failing);
    var d3 := SetItem(d2, CONTACTS_KEY, ContactsV(contacts), CONTACTS_KEY in failing);
    var d4 := SetItem(d3, ACTIVE_DISGUISE_KEY, DisguiseV(disguise), ACTIVE_DISGUISE_KEY in failing);
    SetItem(d4, ONBOARDING_COMPLETE_KEY, BoolV(true), ONBOARDING_COMPLETE_KEY in failing)
  }

  /**
   * When no write fails, the next start reads back everything onboarding chose:
   * onboarding is complete and the PIN, profile, contacts and disguise are the
   * ones entered. Safe stations and history are untouched.
   */
  lemma FinishPersists(data: map<string, Cell>, pin: string, profile: UserProfile,
                       contacts: seq<EmergencyContact>, disguise: DisguiseType)
    ensures var d := FinishWrites(data, pin, profile, contacts, disguise, {});
            IsOnboardingComplete(d, false) && GetPin(d, false) == Some(pin)
            && GetProfile(d, false) == Some(profile) && GetContacts(d, false) == contacts
            && GetActiveDisguise(d, false) == disguise
            && GetSafeStations(d, false) == GetSafeStations(data, false)
            && GetSOSHistory(d, false) == GetSOSHistory(data, false)
  {
  }

  /** A snapshot of the wizard's state fields. */
  datatype FlowFields = FlowFields(
    step: Step, ageRange: string, province: string, city: string,
    pin: string, pinError: string, pendingErrorClears: nat,
    contacts: seq<EmergencyContact>,
    contactName: string, contactPhone: string, contactIsPolice: bool, contactWhatsapp: string,
    disguise: DisguiseType)

  /** The state the wizard starts in. */
  const FLOW_START: FlowFields := FlowFields(Welcome, "", "", "", "", "", 0, [], "", "", false, "", Calculator)

  class OnboardingFlow {
    var step: Step
    var ageRange: string
    var province: string
    var city: string
    var pin: string
    var pinError: string
    var pendingErrorClears: nat
    var contacts: seq<EmergencyContact>
    var contactName: string
    var contactPhone: string
    var contactIsPolice: bool
    var contactWhatsapp: string
    var disguise: DisguiseType

    function Fields(): FlowFields
      reads this
    {
      FlowFields(step, ageRange, province, city, pin, pinError, pendingErrorClears, contacts,
                 contactName, contactPhone, contactIsPolice, contactWhatsapp, disguise)
    }

    constructor ()
      ensures Fields() == FLOW_START
    {
      step, ageRange, province, city, pin := Welcome, "", "", "", "";
      pinError, pendingErrorClears, contacts := "", 0, [];
      contactName, contactPhone, contactIsPolice, contactWhatsapp := "", "", false, "";
      disguise := Calculator;
    }

    /** The welcome button. */
    method Begin()
      requires step == Welcome
      modifies this
      ensures Fields() == old(Fields()).(step := Age)
    {
      step := Age;
    }

    /** The age continue button: enabled only once an age range is chosen. */
    method ContinueFromAge()
      requires step == Age
      modifies this
      ensures Fields() == old(Fields()).(step := if ageRange != "" then Location else Age)
    {
      if ageRange != "" {
        step := Location;
      }
    }

    /** The location continue button: enabled only once a province is chosen; the city is optional. */
    method ContinueFromLocation()
      requires step == Location
      modifies this
      ensures Fields() == old(Fields()).(step := if province != "" then Pin else Location)
    {
      if province != "" {
        step := Pin;
      }
    }

    /** `handlePinSet`: the completed PIN is kept and confirmation follows. */
    method HandlePinSet(p: string)
      requires step == Pin
      modifies this
      ensures Fields() == old(Fields()).(pin := p, step := PinConfirm)
    {
      pin := p;
      step := PinConfirm;
    }

    /**
     * `handlePinConfirm`: the same PIN moves on to contacts; a different one shows
     * the mismatch message (cleared two seconds later) and stays on confirmation.
     */
    method HandlePinConfirm(p: string)
      requires step == PinConfirm
      modifies this
      ensures p == pin ==> Fields() == old(Fields()).(step := Contacts)
      ensures p != pin ==> Fields() == old(Fields()).(pinError := PIN_MISMATCH,
                                                      pendingErrorClears := old(pendingErrorClears) + 1)
    {
      if p == pin {
        step := Contacts;
      } else {
        pinError := PIN_MISMATCH;
        pendingErrorClears := pendingErrorClears + 1;
      }
    }

    /** The mismatch message's timer. */
    method PinErrorClearFires()
      requires pendingErrorClears > 0
      modifies this
      ensures Fields() == old(Fields()).(pinError := "", pendingErrorClears := old(pendingErrorClears) - 1)
    {
      pinError := "";
      pendingErrorClears := pendingErrorClears - 1;
    }

    /**
     * `addContact`: with a non-blank name and phone and fewer than ten contacts,
     * appends the trimmed contact and resets the form; otherwise nothing changes.
     */
    method AddContact(id: string)
      modifies this
      ensures contacts == ContactForm.AddContact(old(contacts), id, old(contactName), old(contactPhone),
                                                 old(contactIsPolice), old(contactWhatsapp))
      ensures CanAdd(old(contactName), old(contactPhone), |old(contacts)|) ==>
                Fields() == old(Fields()).(contacts := contacts, contactName := "", contactPhone := "",
                                           contactIsPolice := false, contactWhatsapp := "")
      ensures !CanAdd(old(contactName), old(contactPhone), |old(contacts)|) ==> Fields() == old(Fields())
    {
      var updated := ContactForm.AddContact(contacts, id, contactName, contactPhone, contactIsPolice, contactWhatsapp);
      if CanAdd(contactName, contactPhone, |contacts|) {
        contactName, contactPhone, contactIsPolice, contactWhatsapp := "", "", false, "";
      }
      contacts := updated;
    }

    /** `removeContact`: drops the contacts with that id. */
    method RemoveContact(id: string)
      modifies this
      ensures Fields() == old(Fields()).(contacts := WithoutId(old(contacts), ContactId, id))
    {
      contacts := WithoutId(contacts, ContactId, id);
    }

    /** The contacts continue button: enabled only when `canProceedContacts` holds. */
    method ContinueFromContacts()
      requires step == Contacts
      modifies this
      ensures Fields() == old(Fields()).(step := if CanProceedContacts(contacts) then Disguise else Contacts)
    {
      if CanProceedContacts(contacts) {
        step := Disguise;
      }
    }

    /**
     * The back button, drawn on every step but welcome and the two PIN steps: the
     * previous step in the fixed list.
     */
    method Back()
      requires ShowsBack(step)
      modifies this
      ensures Fields() == old(Fields()).(step := PreviousStep(old(step)))
    {
      var i := StepIndex(step);
      if i > 0 {
        step := STEPS[i - 1];
      }
    }

    /**
     * `finishOnboarding`: saves the PIN, the profile, the contacts and the disguise,
     * each awaited in that order, then marks onboarding complete and unlocks.
     */
    method Finish(app: AppState, failing: set<string>)
      modifies app, app.store
      ensures app.Fields() == old(app.Fields()).(
                pin := Some(pin), profile := Some(UserProfile(ageRange, province, city)),
                contacts := contacts, activeDisguise := disguise,
                isOnboarded := true, isUnlocked := true)
      ensures app.store.data == FinishWrites(old(app.store.data), pin, UserProfile(ageRange, province, city),
                                             contacts, disguise, failing)
      ensures app.store.log == old(app.store.log)
                + [PIN_KEY, USER_PROFILE_KEY, CONTACTS_KEY, ACTIVE_DISGUISE_KEY, ONBOARDING_COMPLETE_KEY]
    {
      app.SetPin(pin, PIN_KEY in failing);
      app.SetProfile(UserProfile(ageRange, province, city), USER_PROFILE_KEY in failing);
      app.SetContacts(contacts, CONTACTS_KEY in failing);
      app.SetActiveDisguise(disguise, ACTIVE_DISGUISE_KEY in failing);
      app.SetIsOnboarded(true, ONBOARDING_COMPLETE_KEY in failing);
      app.SetIsUnlocked(true);
    }
  }

  /**
   * The first half of a run: an age range, a province and city and the same PIN
   * twice reach the contacts step with the profile and the PIN kept.
   */
  method WizardReachesContacts(pin: string) returns (f: OnboardingFlow)
    ensures fresh(f)
    ensures f.Fields() == FLOW_START.(step := Contacts, ageRange := "18-25", province := "Luanda",
                                      city := "Viana", pin := pin)
  {
    f := new OnboardingFlow();
    f.Begin();
    f.ageRange := "18-25";
    f.ContinueFromAge();
    f.province, f.city := "Luanda", "Viana";
    f.ContinueFromLocation();
    f.HandlePinSet(pin);
    f.HandlePinConfirm(pin);
  }

  /**
   * A complete run: after the first half, one police contact with a non-blank
   * name and phone reaches the disguise step with the PIN, the profile and that
   * contact kept.
   */
  method WizardReachesDisguise(pin: string, name: string, phone: string)
    returns (step: Step, keptPin: string, contacts: seq<EmergencyContact>, profile: UserProfile)
    requires CanAdd(name, phone, 0)
    ensures step == Disguise && keptPin == pin
    ensures contacts == [NewContact("c1", name, phone, true, "")] && contacts[0].isPolice
    ensures profile == UserProfile("18-25", "Luanda", "Viana")
  {
    var f := WizardReachesContacts(pin);
    f.contactName, f.contactPhone, f.contactIsPolice := name, phone, true;
    f.AddContact("c1");
    AddingQualifyingContactProceeds([], "c1", name, phone, true, "");
    f.ContinueFromContacts();
    step, keptPin, contacts := f.step, f.pin, f.contacts;
    profile := UserProfile(f.ageRange, f.province, f.city);
  }
}
