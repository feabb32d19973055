/**
 * The safe stations screen: the directory of places to seek help, filtered by
 * type, with user-added (custom) stations that can be deleted again.
 */
module SafeStations {
  import opened Wrappers
  import opened Strings
  import opened Storage
  import opened Lists
  import opened AppContext

  /** The theme's secondary text colour; the theme (constants/colors) is not part of this model. */
  const TEXT_SECONDARY: string := "Colors.textSecondary"

  /** `getIcon(t)`. */
  function GetIcon(t: string): (icon: string)
    ensures icon == "location" <==> !Named(t)
  {
    if t == "hospital" then "medkit"
    else if t == "police" then "shield-checkmark"
    else if t == "ngo" then "heart"
    else if t == "shelter" then "home"
    else "location"
  }

  /** `getColor(t)`. */
  function GetColor(t: string): (color: string)
    ensures color == TEXT_SECONDARY <==> !Named(t)
  {
    if t == "hospital" then "#4CAF50"
    else if t == "police" then "#2196F3"
    else if t == "ngo" then "#E91E63"
    else if t == "shelter" then "#FF9800"
    else TEXT_SECONDARY
  }

  /** `getLabel(t)`. */
  function GetLabel(t: string): (name: string)
    ensures name == "Outro" <==> !Named(t)
  {
    if t == "hospital" then "Hospital"
    else if t == "police" then "Polícia"
    else if t == "ngo" then "ONG"
    else if t == "shelter" then "Abrigo"
    else "Outro"
  }

  /** The four named types are told apart by icon, colour and label. */
  predicate Named(t: string)
  {
    t == "hospital" || t == "police" || t == "ngo" || t == "shelter"
  }

  /**
   * Every string that is not one of the four named types, `custom` included,
   * shows the generic location icon, the secondary colour and the label `Outro`;
   * the named types get icons, colours and labels of their own, distinct from
   * each other and from the generic ones.
   */
  lemma UnknownTypeFallsBack(t: string)
    ensures !Named(t) <==> GetIcon(t) == "location"
    ensures !Named(t) <==> GetColor(t) == TEXT_SECONDARY
    ensures !Named(t) <==> GetLabel(t) == "Outro"
    ensures forall u :: Named(t) && Named(u) && t != u ==>
              GetIcon(t) != GetIcon(u) && GetColor(t) != GetColor(u) && GetLabel(t) != GetLabel(u)
  {
  }

  /** The chip types, in order. */
  const FILTER_TYPES: seq<StationType> := [Hospital, Police, Ngo, Shelter, Custom]

  /** `filtered`: every station without a filter, otherwise those of the filtered type, in order. */
  function Filtered(ss: seq<SafeStation>, filter: Option<StationType>): (r: seq<SafeStation>)
    ensures |r| <= |ss|
    ensures filter.None? ==> r == ss
  {
    if filter.None? || ss == [] then ss
    else Filtered(ss[..|ss| - 1], filter) + (if ss[|ss| - 1].kind == filter.value then [ss[|ss| - 1]] else [])
  }

  /** A filter keeps exactly the stations of its type. */
  lemma {:induction false} FilteredMembership(ss: seq<SafeStation>, t: StationType)
    ensures forall s :: s in Filtered(ss, Some(t)) <==> s in ss && s.kind == t
    decreases |ss|
  {
    if ss != [] {
      FilteredMembership(ss[..|ss| - 1], t);
      assert ss == ss[..|ss| - 1] + [ss[|ss| - 1]];
    }
  }

  /** Filtering keeps the list's order: the filter of a concatenation is the concatenation of the filters. */
  lemma {:induction false} FilteredKeepsOrder(a: seq<SafeStation>, b: seq<SafeStation>, filter: Option<StationType>)
    ensures Filtered(a + b, filter) == Filtered(a, filter) + Filtered(b, filter)
    decreases |b|
  {
    if filter.Some? {
      if b == [] {
        assert a + b == a;
      } else {
        var ab := a + b;
        assert ab[..|ab| - 1] == a + b[..|b| - 1];
        assert ab[|ab| - 1] == b[|b| - 1];
        FilteredKeepsOrder(a, b[..|b| - 1], filter);
      }
    }
  }

  /** A station's id, the key that removal (`safeStations.filter((s) => s.id !== id)`) compares. */
  function StationId(s: SafeStation): string
  {
    s.id
  }

  /** The delete button is offered for custom stations only. */
  predicate DeleteOffered(s: SafeStation)
    ensures s in DEFAULT_SAFE_STATIONS ==> !DeleteOffered(s)
  {
    s.isCustom
  }

  /** The station the form builds: trimmed, without coordinates, custom. */
  function NewStation(id: string, name: string, address: string, phone: string, kind: StationType): (s: SafeStation)
    ensures s.name == Trim(name) && s.address == Trim(address) && s.kind == kind
    ensures s.latitude == 0.0 && s.longitude == 0.0 && DeleteOffered(s)
    ensures s.id == id
    ensures s.phone.None? <==> Trim(phone) == ""
    ensures s.phone.Some? ==> s.phone.value == Trim(phone)
  {
    SafeStation(id, Trim(name), Trim(address), if Trim(phone) == "" then None else Some(Trim(phone)),
                0.0, 0.0, kind, true)
  }

  /** None of the built-in stations can be deleted; every added one can. */
  lemma OnlyAddedStationsDeletable(id: string, name: string, address: string, phone: string, kind: StationType)
    ensures forall i :: 0 <= i < |DEFAULT_SAFE_STATIONS| ==> !DeleteOffered(DEFAULT_SAFE_STATIONS[i])
    ensures DeleteOffered(NewStation(id, name, address, phone, kind))
  {
  }

  class SafeStationsScreen {
    const app: AppState
    var showAdd: bool
    var name: string
    var address: string
    var phone: string
    var kind: StationType
    var filter: Option<StationType>

    constructor (app: AppState)
      ensures this.app == app && !showAdd && name == "" && address == "" && phone == ""
      ensures kind == Custom && filter == None
    {
      this.app := app;
      showAdd, name, address, phone := false, "", "", "";
      kind, filter := Custom, None;
    }

    /** The stations listed under the current filter. */
    function Shown(): seq<SafeStation>
      reads this, app
    {
      Filtered(app.safeStations, filter)
    }

    /**
     * `addStation`: with a non-blank name and address, saves the list with the new
     * custom station appended, clears name, address and phone and hides the form,
     * keeping the chosen type; otherwise nothing changes.
     */
    method AddStation(id: string, writeFails: bool)
      modifies this, app, app.store
      ensures Trim(old(name)) != "" && Trim(old(address)) != "" ==>
        && app.Fields() == old(app.Fields()).(safeStations := old(app.safeStations)
             + [NewStation(id, old(name), old(address), old(phone), old(kind))])
        && app.store.data == SetItem(old(app.store.data), SAFE_STATIONS_KEY, StationsV(app.safeStations), writeFails)
        && app.store.log == old(app.store.log) + [SAFE_STATIONS_KEY]
        && name == "" && address == "" && phone == "" && !showAdd
      ensures Trim(old(name)) == "" || Trim(old(address)) == "" ==>
        && app.Fields() == old(app.Fields())
        && app.store.data == old(app.store.data) && app.store.log == old(app.store.log)
        && name == old(name) && address == old(address) && phone == old(phone) && showAdd == old(showAdd)
      ensures kind == old(kind) && filter == old(filter)
    {
      if Trim(name) == "" || Trim(address) == "" {
        return;
      }
      var s := NewStation(id, name, address, phone, kind);
      app.SetSafeStations(app.safeStations + [s], writeFails);
      name, address, phone := "", "", "";
      showAdd := false;
    }

    /** `removeStation`: saves the list without the station of that id. */
    method RemoveStation(id: string, writeFails: bool)
      modifies app, app.store
      ensures app.Fields() == old(app.Fields()).(safeStations := WithoutId(old(app.safeStations), StationId, id))
      ensures app.store.data == SetItem(old(app.store.data), SAFE_STATIONS_KEY, StationsV(app.safeStations), writeFails)
      ensures app.store.log == old(app.store.log) + [SAFE_STATIONS_KEY]
    {
      app.SetSafeStations(WithoutId(app.safeStations, StationId, id), writeFails);
    }

    /** The `Todos` chip: no filter. */
    method ShowAll()
      modifies this
      ensures filter == None
      ensures name == old(name) && address == old(address) && phone == old(phone) && kind == old(kind)
      ensures showAdd == old(showAdd)
    {
      filter := None;
    }

    /** A type chip: tapping the active one clears the filter, any other sets it. */
    method ToggleFilter(t: StationType)
      modifies this
      ensures filter == if old(filter) == Some(t) then None else Some(t)
      ensures name == old(name) && address == old(address) && phone == old(phone) && kind == old(kind)
      ensures showAdd == old(showAdd)
    {
      filter := if filter == Some(t) then None else Some(t);
    }
  }

  /** Tapping the same chip twice restores the unfiltered list. */
  method ToggleTwiceShowsAll(app: AppState, t: StationType) returns (shown: seq<SafeStation>)
    ensures shown == app.safeStations
  {
    var screen := new SafeStationsScreen(app);
    screen.ToggleFilter(t);
    screen.ToggleFilter(t);
    shown := screen.Shown();
  }
}
