/**
 * Local persistence of the application: the entities it stores, the key of each
 * stored field, typed reads that fall back to a default, writes that swallow
 * their errors, and the capped SOS history.
 *
 * The device's key/value store is a map from key to the stored JSON text. The
 * text is modelled by the value it encodes (`Json(v)`, what `JSON.stringify(v)`
 * wrote) or as text that `JSON.parse` rejects (`Unparsable`). A failing read or
 * write of the device store is an oracle flag of the operation.
 */
module Storage {
  import opened Wrappers

  // Keys, one per stored field.
  const ONBOARDING_COMPLETE_KEY: string := "@aj_onboarding_complete"
  const USER_PROFILE_KEY: string := "@aj_user_profile"
  const PIN_KEY: string := "@aj_pin"
  const CONTACTS_KEY: string := "@aj_contacts"
  const ACTIVE_DISGUISE_KEY: string := "@aj_active_disguise"
  const SAFE_STATIONS_KEY: string := "@aj_safe_stations"
  const SOS_HISTORY_KEY: string := "@aj_sos_history"

  /** All keys, in declaration order. */
  const KEYS: seq<string> := [ONBOARDING_COMPLETE_KEY, USER_PROFILE_KEY, PIN_KEY, CONTACTS_KEY,
                              ACTIVE_DISGUISE_KEY, SAFE_STATIONS_KEY, SOS_HISTORY_KEY]

  /** At most this many SOS records are kept. */
  const HISTORY_CAP: nat := 50

  datatype UserProfile = UserProfile(ageRange: string, province: string, city: string)

  /** `whatsapp` and `telegram` are optional handles (`undefined` when absent). */
  datatype EmergencyContact = EmergencyContact(
    id: string, name: string, phone: string, isPolice: bool,
    whatsapp: Option<string>, telegram: Option<string>)

  datatype DisguiseType = Calculator | Notes | Clock

  datatype StationType = Hospital | Police | Ngo | Shelter | Custom

  datatype SafeStation = SafeStation(
    id: string, name: string, address: string, phone: Option<string>,
    latitude: real, longitude: real, kind: StationType, isCustom: bool)

  /** `latitude`/`longitude` are `undefined` when no location was known. */
  datatype SOSRecord = SOSRecord(
    id: string, timestamp: int, latitude: Option<real>, longitude: Option<real>,
    contactsNotified: seq<string>, cancelled: bool)

  /** The identifier the source uses for each disguise. */
  function DisguiseId(d: DisguiseType): string
  {
    match d
    case Calculator => "calculator"
    case Notes => "notes"
    case Clock => "clock"
  }

  /** The identifier the source uses for each station type. */
  function StationTypeId(t: StationType): string
  {
    match t
    case Hospital => "hospital"
    case Police => "police"
    case Ngo => "ngo"
    case Shelter => "shelter"
    case Custom => "custom"
  }

  /** The built-in directory of safe stations in Luanda. */
  const DEFAULT_SAFE_STATIONS: seq<SafeStation> := [
    SafeStation("1", "Centro de Acolhimento Maianga", "Bairro Maianga, Luanda", Some("222321456"),
                -8.8383, 13.2344, Shelter, false),
    SafeStation("2", "Hospital Josina Machel", "Rua Major Kanhangulo, Luanda", Some("222337244"),
                -8.8147, 13.2302, Hospital, false),
    SafeStation("3", "Esquadra Policial - Maianga", "Maianga, Luanda", Some("113"),
                -8.8380, 13.2350, Police, false),
    SafeStation("4", "Rede Mulher Angola", "Luanda Centro", Some("222390988"),
                -8.8200, 13.2400, Ngo, false),
    SafeStation("5", "SIC - Luanda", "Rua Direita de Luanda", Some("113"),
                -8.8100, 13.2350, Police, false),
    SafeStation("6", "Hospital Militar", "Av. Deolinda Rodrigues, Luanda", Some("222321000"),
                -8.8300, 13.2250, Hospital, false)
  ]

  // Angolan emergency numbers.
  const POLICIA: string := "113"
  const BOMBEIROS: string := "190"
  const CRIANCA: string := "145"
  const MULHER: string := "180"

  /** A JSON value as one of the stored fields writes it. */
  datatype Value =
    | BoolV(flag: bool)
    | ProfileV(profile: UserProfile)
    | TextV(text: string)
    | DisguiseV(disguise: DisguiseType)
    | ContactsV(contacts: seq<EmergencyContact>)
    | StationsV(stations: seq<SafeStation>)
    | HistoryV(history: seq<SOSRecord>)

  /** The text stored under a key: a JSON encoding of a value, or text `JSON.parse` rejects. */
  datatype Cell = Json(value: Value) | Unparsable

  /**
   * `getItem(key, defaultValue)`: the stored value, or the default when the key
   * is absent, when the read throws (`readFails`) or when the text does not parse.
   */
  function GetItem(data: map<string, Cell>, key: string, default: Value, readFails: bool): (v: Value)
    ensures (readFails || key !in data || data[key] == Unparsable) ==> v == default
    ensures !readFails && key in data && data[key].Json? ==> v == data[key].value
  {
    if readFails || key !in data then default
    else match data[key]
      case Json(v) => v
      case Unparsable => default
  }

  /** The store after `setItem(key, value)`: unchanged when the write fails. */
  function SetItem(data: map<string, Cell>, key: string, v: Value, writeFails: bool): (data': map<string, Cell>)
    ensures writeFails ==> data' == data
    ensures !writeFails ==> key in data' && data'[key] == Json(v)
  {
    if writeFails then data else data[key := Json(v)]
  }

  // Typed getters. A stored value of another shape than the field's reads as the default.

  /** `isOnboardingComplete`: true only when `true` is stored under its key. */
  function IsOnboardingComplete(data: map<string, Cell>, readFails: bool): (done: bool)
    ensures done <==> !readFails && ONBOARDING_COMPLETE_KEY in data && data[ONBOARDING_COMPLETE_KEY] == Json(BoolV(true))
  {
    match GetItem(data, ONBOARDING_COMPLETE_KEY, BoolV(false), readFails)
    case BoolV(b) => b
    case _ => false
  }

  /** `getUserProfile`: the stored profile, or nothing. */
  function GetProfile(data: map<string, Cell>, readFails: bool): (r: Option<UserProfile>)
    ensures readFails || USER_PROFILE_KEY !in data ==> r == None
    ensures r.Some? <==> !readFails && USER_PROFILE_KEY in data && data[USER_PROFILE_KEY].Json?
                         && data[USER_PROFILE_KEY].value.ProfileV?
    ensures r.Some? ==> data[USER_PROFILE_KEY] == Json(ProfileV(r.value))
  {
    if readFails || USER_PROFILE_KEY !in data then None
    else match data[USER_PROFILE_KEY]
      case Json(ProfileV(p)) => Some(p)
      case _ => None
  }

  /** `getPin`: the stored PIN, or nothing. */
  function GetPin(data: map<string, Cell>, readFails: bool): (r: Option<string>)
    ensures readFails || PIN_KEY !in data ==> r == None
    ensures r.Some? <==> !readFails && PIN_KEY in data && data[PIN_KEY].Json? && data[PIN_KEY].value.TextV?
    ensures r.Some? ==> data[PIN_KEY] == Json(TextV(r.value))
  {
    if readFails || PIN_KEY !in data then None
    else match data[PIN_KEY]
      case Json(TextV(p)) => Some(p)
      case _ => None
  }

  /** `getContacts`: the stored list, or the empty list. */
  function GetContacts(data: map<string, Cell>, readFails: bool): (cs: seq<EmergencyContact>)
    ensures readFails || CONTACTS_KEY !in data ==> cs == []
    ensures !readFails && CONTACTS_KEY in data && data[CONTACTS_KEY].Json? && data[CONTACTS_KEY].value.ContactsV?
            ==> cs == data[CONTACTS_KEY].value.contacts
    ensures cs != [] ==> !readFails && CONTACTS_KEY in data && data[CONTACTS_KEY] == Json(ContactsV(cs))
  {
    match GetItem(data, CONTACTS_KEY, ContactsV([]), readFails)
    case ContactsV(cs) => cs
    case _ => []
  }

  /** `getActiveDisguise`: the stored disguise, or the calculator. */
  function GetActiveDisguise(data: map<string, Cell>, readFails: bool): (d: DisguiseType)
    ensures readFails || ACTIVE_DISGUISE_KEY !in data ==> d == Calculator
    ensures !readFails && ACTIVE_DISGUISE_KEY in data && data[ACTIVE_DISGUISE_KEY].Json?
            && data[ACTIVE_DISGUISE_KEY].value.DisguiseV?
            ==> d == data[ACTIVE_DISGUISE_KEY].value.disguise
    ensures d != Calculator ==> !readFails && ACTIVE_DISGUISE_KEY in data && data[ACTIVE_DISGUISE_KEY] == Json(DisguiseV(d))
  {
    match GetItem(data, ACTIVE_DISGUISE_KEY, DisguiseV(Calculator), readFails)
    case DisguiseV(d) => d
    case _ => Calculator
  }

  /** `getSafeStations`: the stored list, or the built-in directory. */
  function GetSafeStations(data: map<string, Cell>, readFails: bool): (ss: seq<SafeStation>)
    ensures readFails || SAFE_STATIONS_KEY !in data ==> ss == DEFAULT_SAFE_STATIONS
    ensures !readFails && SAFE_STATIONS_KEY in data && data[SAFE_STATIONS_KEY].Json?
            && data[SAFE_STATIONS_KEY].value.StationsV?
            ==> ss == data[SAFE_STATIONS_KEY].value.stations
    ensures ss != DEFAULT_SAFE_STATIONS ==>
              !readFails && SAFE_STATIONS_KEY in data && data[SAFE_STATIONS_KEY] == Json(StationsV(ss))
  {
    match GetItem(data, SAFE_STATIONS_KEY, StationsV(DEFAULT_SAFE_STATIONS), readFails)
    case StationsV(ss) => ss
    case _ => DEFAULT_SAFE_STATIONS
  }

  /** `getSOSHistory`: the stored history, or the empty history. */
  function GetSOSHistory(data: map<string, Cell>, readFails: bool): (h: seq<SOSRecord>)
    ensures readFails || SOS_HISTORY_KEY !in data ==> h == []
    ensures !readFails && SOS_HISTORY_KEY in data && data[SOS_HISTORY_KEY].Json?
            && data[SOS_HISTORY_KEY].value.HistoryV?
            ==> h == data[SOS_HISTORY_KEY].value.history
    ensures h != [] ==> !readFails && SOS_HISTORY_KEY in data && data[SOS_HISTORY_KEY] == Json(HistoryV(h))
  {
    match GetItem(data, SOS_HISTORY_KEY, HistoryV([]), readFails)
    case HistoryV(h) => h
    case _ => []
  }

  /** The keys are pairwise distinct, so every field is stored apart from the others. */
  lemma KeysDistinct()
    ensures forall i, j :: 0 <= i < j < |KEYS| ==> KEYS[i] != KEYS[j]
  {
  }

  /** With nothing stored (or every read failing), each getter gives its default. */
  lemma GetterDefaults(data: map<string, Cell>, readFails: bool)
    requires readFails || forall k :: k in KEYS ==> k !in data
    ensures !IsOnboardingComplete(data, readFails)
    ensures GetProfile(data, readFails) == None
    ensures GetPin(data, readFails) == None
    ensures GetContacts(data, readFails) == []
    ensures GetActiveDisguise(data, readFails) == Calculator
    ensures GetSafeStations(data, readFails) == DEFAULT_SAFE_STATIONS
    ensures GetSOSHistory(data, readFails) == []
  {
    if !readFails {
      assert KEYS[0] == ONBOARDING_COMPLETE_KEY && KEYS[1] == USER_PROFILE_KEY && KEYS[2] == PIN_KEY;
      assert KEYS[3] == CONTACTS_KEY && KEYS[4] == ACTIVE_DISGUISE_KEY && KEYS[5] == SAFE_STATIONS_KEY;
      assert KEYS[6] == SOS_HISTORY_KEY;
    }
  }

  /** A successful write followed by a read of the same key gives back what was written. */
  lemma SetThenGet(data: map<string, Cell>, key: string, v: Value, default: Value)
    ensures GetItem(SetItem(data, key, v, false), key, default, false) == v
  {
  }

  /** Each setter followed by its getter returns the value set. */
  lemma TypedSetThenGet(data: map<string, Cell>, onboarded: bool, profile: UserProfile, pin: string,
                        contacts: seq<EmergencyContact>, disguise: DisguiseType,
                        stations: seq<SafeStation>, history: seq<SOSRecord>)
    ensures IsOnboardingComplete(SetItem(data, ONBOARDING_COMPLETE_KEY, BoolV(onboarded), false), false) == onboarded
    ensures GetProfile(SetItem(data, USER_PROFILE_KEY, ProfileV(profile), false), false) == Some(profile)
    ensures GetPin(SetItem(data, PIN_KEY, TextV(pin), false), false) == Some(pin)
    ensures GetContacts(SetItem(data, CONTACTS_KEY, ContactsV(contacts), false), false) == contacts
    ensures GetActiveDisguise(SetItem(data, ACTIVE_DISGUISE_KEY, DisguiseV(disguise), false), false) == disguise
    ensures GetSafeStations(SetItem(data, SAFE_STATIONS_KEY, StationsV(stations), false), false) == stations
    ensures GetSOSHistory(SetItem(data, SOS_HISTORY_KEY, HistoryV(history), false), false) == history
  {
  }

  /** Writing one key leaves what every other key reads unchanged. */
  lemma SetLeavesOtherKeys(data: map<string, Cell>, key: string, v: Value, writeFails: bool,
                           other: string, default: Value, readFails: bool)
    requires other != key
    ensures GetItem(SetItem(data, key, v, writeFails), other, default, readFails)
         == GetItem(data, other, default, readFails)
  {
  }

  /**
   * `history.unshift(record); history.slice(0, 50)`: the new record first, then
   * the older records newest first, the oldest dropped beyond the cap.
   */
  function Prepend(history: seq<SOSRecord>, r: SOSRecord): (h: seq<SOSRecord>)
    ensures |h| == if |history| < HISTORY_CAP then |history| + 1 else HISTORY_CAP
    ensures h[0] == r
    ensures h[1..] == history[..|h| - 1]
  {
    var full := [r] + history;
    assert full[1..] == history;
    if |full| <= HISTORY_CAP then full else full[..HISTORY_CAP]
  }

  /** `records` reversed: the last one first. */
  function Reverse(records: seq<SOSRecord>): (r: seq<SOSRecord>)
    ensures |r| == |records|
  {
    if records == [] then [] else Reverse(records[1..]) + [records[0]]
  }

  /** The history after adding `records` one after the other. */
  function PrependAll(history: seq<SOSRecord>, records: seq<SOSRecord>): seq<SOSRecord>
    decreases |records|
  {
    if records == [] then history
    else PrependAll(Prepend(history, records[0]), records[1..])
  }

  /** The first `n` elements of `s`, or all of them when there are fewer. */
  function Take(s: seq<SOSRecord>, n: nat): seq<SOSRecord>
  {
    if |s| <= n then s else s[..n]
  }

  /**
   * Adding records one at a time keeps exactly the most recent ones, newest first,
   * up to the cap: the result is the added records in reverse order followed by the
   * earlier history, cut to the first 50.
   */
  lemma {:induction false} PrependAllKeepsNewest(history: seq<SOSRecord>, records: seq<SOSRecord>)
    requires |history| <= HISTORY_CAP
    ensures PrependAll(history, records) == Take(Reverse(records) + history, HISTORY_CAP)
    decreases |records|
  {
    if records != [] {
      var h1 := Prepend(history, records[0]);
      PrependIsTake(history, records[0]);
      PrependAllKeepsNewest(h1, records[1..]);
      var rr := Reverse(records[1..]);
      TakeOfTake(rr, [records[0]] + history);
      ReverseAppend(records, rr, history);
    }
  }

  /** `Prepend` is `Take` of the record put in front. */
  lemma PrependIsTake(history: seq<SOSRecord>, r: SOSRecord)
    ensures Prepend(history, r) == Take([r] + history, HISTORY_CAP)
  {
  }

  /** Regrouping the reversed records in front of the history. */
  lemma ReverseAppend(records: seq<SOSRecord>, rr: seq<SOSRecord>, history: seq<SOSRecord>)
    requires records != [] && rr == Reverse(records[1..])
    ensures Reverse(records) + history == rr + ([records[0]] + history)
  {
    assert Reverse(records) == rr + [records[0]];
  }

  /** Cutting the tail before or after putting `a` in front gives the same first 50. */
  lemma TakeOfTake(a: seq<SOSRecord>, b: seq<SOSRecord>)
    ensures Take(a + Take(b, HISTORY_CAP), HISTORY_CAP) == Take(a + b, HISTORY_CAP)
  {
    var l := Take(a + Take(b, HISTORY_CAP), HISTORY_CAP);
    var r := Take(a + b, HISTORY_CAP);
    assert |l| == |r|;
    forall i | 0 <= i < |l| ensures l[i] == r[i] {
      if i < |a| {
      } else {
        assert (a + Take(b, HISTORY_CAP))[i] == Take(b, HISTORY_CAP)[i - |a|];
      }
    }
  }

  /** Fifty-five records added to an empty history leave the last fifty, newest first. */
  lemma FiftyFiveLeaveFifty(records: seq<SOSRecord>)
    requires |records| == 55
    ensures PrependAll([], records) == Reverse(records)[..HISTORY_CAP]
    ensures forall i :: 0 <= i < HISTORY_CAP ==> PrependAll([], records)[i] == records[54 - i]
  {
    PrependAllKeepsNewest([], records);
    assert Reverse(records) + [] == Reverse(records);
    forall i | 0 <= i < HISTORY_CAP ensures Reverse(records)[i] == records[54 - i] {
      ReverseAt(records, i);
    }
  }

  lemma {:induction false} ReverseAt(s: seq<SOSRecord>, i: nat)
    requires i < |s|
    ensures Reverse(s)[i] == s[|s| - 1 - i]
    decreases |s|
  {
    if i < |s| - 1 {
      ReverseAt(s[1..], i);
    }
  }

  /**
   * The device store as the application sees it: `data` holds the stored text per
   * key; `log` lists the keys of the writes attempted so far, oldest first, so that
   * the order of writes can be stated.
   */
  class Store {
    var data: map<string, Cell>
    var log: seq<string>

    constructor (initial: map<string, Cell>)
      ensures data == initial && log == []
    {
      data := initial;
      log := [];
    }

    /** `setItem(key, value)`: a failing write is swallowed and changes nothing. */
    method Write(key: string, v: Value, writeFails: bool)
      modifies this
      ensures data == SetItem(old(data), key, v, writeFails)
      ensures log == old(log) + [key]
    {
      if !writeFails {
        data := data[key := Json(v)];
      }
      log := log + [key];
    }

    /**
     * `addSOSRecord(record)`: reads the history (empty on any read problem), puts the
     * record in front, keeps the first 50 and writes the result back.
     */
    method AddSOSRecord(r: SOSRecord, readFails: bool, writeFails: bool)
      modifies this
      ensures data == SetItem(old(data), SOS_HISTORY_KEY,
                              HistoryV(Prepend(GetSOSHistory(old(data), readFails), r)), writeFails)
      ensures log == old(log) + [SOS_HISTORY_KEY]
    {
      var history := GetSOSHistory(data, readFails);
      history := [r] + history;
      if |history| > HISTORY_CAP {
        history := history[..HISTORY_CAP];
      }
      Write(SOS_HISTORY_KEY, HistoryV(history), writeFails);
    }
  }

  /** A successful add leaves at most 50 records with the new one first. */
  lemma AddedRecordIsNewest(data: map<string, Cell>, r: SOSRecord, readFails: bool)
    ensures var h := GetSOSHistory(SetItem(data, SOS_HISTORY_KEY,
                                           HistoryV(Prepend(GetSOSHistory(data, readFails), r)), false), false);
            |h| <= HISTORY_CAP && h[0] == r
  {
  }
}
