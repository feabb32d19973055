/**
 * The application-wide state (`AppProvider`): loading and onboarding flags, the
 * unlock flag, the PIN, the profile, the contacts, the active disguise and the
 * safe stations. Every setter except the unlock flag's also writes its value to
 * the store; the unlock flag lives in memory only.
 */
module AppContext {
  import opened Wrappers
  import opened Storage

  /** A snapshot of the provider's state fields. */
  datatype AppFields = AppFields(
    isLoading: bool, isOnboarded: bool, isUnlocked: bool,
    pin: Option<string>, profile: Option<UserProfile>,
    contacts: seq<EmergencyContact>, activeDisguise: DisguiseType,
    safeStations: seq<SafeStation>)

  /** The state a fresh provider starts in. */
  const INITIAL: AppFields := AppFields(true, false, false, None, None, [], Calculator, DEFAULT_SAFE_STATIONS)

  class AppState {
    var isLoading: bool
    var isOnboarded: bool
    var isUnlocked: bool
    var pin: Option<string>
    var profile: Option<UserProfile>
    var contacts: seq<EmergencyContact>
    var activeDisguise: DisguiseType
    var safeStations: seq<SafeStation>
    const store: Store

    function Fields(): AppFields
      reads this
    {
      AppFields(isLoading, isOnboarded, isUnlocked, pin, profile, contacts, activeDisguise, safeStations)
    }

    /** The provider before its load effect has run: loading, locked, nothing set up. */
    constructor (store: Store)
      ensures this.store == store
      ensures Fields() == INITIAL
      ensures isLoading && !isOnboarded && !isUnlocked && pin == None && profile == None
      ensures contacts == [] && activeDisguise == Calculator && safeStations == DEFAULT_SAFE_STATIONS
    {
      this.store := store;
      isLoading, isOnboarded, isUnlocked := true, false, false;
      pin, profile := None, None;
      contacts, activeDisguise, safeStations := [], Calculator, DEFAULT_SAFE_STATIONS;
    }

    /**
     * The load effect: reads the six stored fields (a read of a key in `failing`
     * throws and gives that field's default) and copies them in; loading ends
     * whatever happened. The unlock flag is not stored, so it is not loaded.
     */
    method Load(failing: set<string>)
      modifies this
      ensures Fields() == old(Fields()).(
                isLoading := false,
                isOnboarded := IsOnboardingComplete(store.data, ONBOARDING_COMPLETE_KEY in failing),
                pin := GetPin(store.data, PIN_KEY in failing),
                profile := GetProfile(store.data, USER_PROFILE_KEY in failing),
                contacts := GetContacts(store.data, CONTACTS_KEY in failing),
                activeDisguise := GetActiveDisguise(store.data, ACTIVE_DISGUISE_KEY in failing),
                safeStations := GetSafeStations(store.data, SAFE_STATIONS_KEY in failing))
      ensures !isLoading && isUnlocked == old(isUnlocked)
    {
      var onboarded := IsOnboardingComplete(store.data, ONBOARDING_COMPLETE_KEY in failing);
      var storedPin := GetPin(store.data, PIN_KEY in failing);
      var storedProfile := GetProfile(store.data, USER_PROFILE_KEY in failing);
      var storedContacts := GetContacts(store.data, CONTACTS_KEY in failing);
      var disguise := GetActiveDisguise(store.data, ACTIVE_DISGUISE_KEY in failing);
      var stations := GetSafeStations(store.data, SAFE_STATIONS_KEY in failing);
      isOnboarded := onboarded;
      pin := storedPin;
      profile := storedProfile;
      contacts := storedContacts;
      activeDisguise := disguise;
      safeStations := stations;
      isLoading := false;
    }

    /** `setIsOnboarded(v)`: updates memory and issues the write without waiting for it. */
    method SetIsOnboarded(v: bool, writeFails: bool)
      modifies this, store
      ensures Fields() == old(Fields()).(isOnboarded := v)
      ensures store.data == SetItem(old(store.data), ONBOARDING_COMPLETE_KEY, BoolV(v), writeFails)
      ensures store.log == old(store.log) + [ONBOARDING_COMPLETE_KEY]
    {
      isOnboarded := v;
      store.Write(ONBOARDING_COMPLETE_KEY, BoolV(v), writeFails);
    }

    /** `setIsUnlocked(v)`: memory only; nothing is written. */
    method SetIsUnlocked(v: bool)
      modifies this
      ensures Fields() == old(Fields()).(isUnlocked := v)
    {
      isUnlocked := v;
    }

    method SetPin(newPin: string, writeFails: bool)
      modifies this, store
      ensures Fields() == old(Fields()).(pin := Some(newPin))
      ensures store.data == SetItem(old(store.data), PIN_KEY, TextV(newPin), writeFails)
      ensures store.log == old(store.log) + [PIN_KEY]
    {
      pin := Some(newPin);
      store.Write(PIN_KEY, TextV(newPin), writeFails);
    }

    method SetProfile(p: UserProfile, writeFails: bool)
      modifies this, store
      ensures Fields() == old(Fields()).(profile := Some(p))
      ensures store.data == SetItem(old(store.data), USER_PROFILE_KEY, ProfileV(p), writeFails)
      ensures store.log == old(store.log) + [USER_PROFILE_KEY]
    {
      profile := Some(p);
      store.Write(USER_PROFILE_KEY, ProfileV(p), writeFails);
    }

    method SetContacts(c: seq<EmergencyContact>, writeFails: bool)
      modifies this, store
      ensures Fields() == old(Fields()).(contacts := c)
      ensures store.data == SetItem(old(store.data), CONTACTS_KEY, ContactsV(c), writeFails)
      ensures store.log == old(store.log) + [CONTACTS_KEY]
    {
      contacts := c;
      store.Write(CONTACTS_KEY, ContactsV(c), writeFails);
    }

    method SetActiveDisguise(d: DisguiseType, writeFails: bool)
      modifies this, store
      ensures Fields() == old(Fields()).(activeDisguise := d)
      ensures store.data == SetItem(old(store.data), ACTIVE_DISGUISE_KEY, DisguiseV(d), writeFails)
      ensures store.log == old(store.log) + [ACTIVE_DISGUISE_KEY]
    {
      activeDisguise := d;
      store.Write(ACTIVE_DISGUISE_KEY, DisguiseV(d), writeFails);
    }

    method SetSafeStations(s: seq<SafeStation>, writeFails: bool)
      modifies this, store
      ensures Fields() == old(Fields()).(safeStations := s)
      ensures store.data == SetItem(old(store.data), SAFE_STATIONS_KEY, StationsV(s), writeFails)
      ensures store.log == old(store.log) + [SAFE_STATIONS_KEY]
    {
      safeStations := s;
      store.Write(SAFE_STATIONS_KEY, StationsV(s), writeFails);
    }

    /** `lock()`: clears the unlock flag and nothing else. */
    method Lock()
      modifies this
      ensures Fields() == old(Fields()).(isUnlocked := false)
    {
      isUnlocked := false;
    }
  }
}
