/**
 * The disguise switcher screen: lists the three disguises, marks the active one,
 * and on a selection saves the new disguise and then locks the application so
 * that the new cover shows at once.
 */
module DisguiseSwitcher {
  import opened Storage
  import opened AppContext

  /** The cards of the screen, in display order. */
  const DISGUISES: seq<DisguiseType> := [Calculator, Notes, Clock]

  /** Which cards are drawn as active: those whose disguise is the active one. */
  function ActiveMarks(active: DisguiseType): (marks: seq<bool>)
    ensures |marks| == |DISGUISES|
  {
    seq(|DISGUISES|, i requires 0 <= i < |DISGUISES| => DISGUISES[i] == active)
  }

  /** Exactly one card is marked active, the one of the active disguise. */
  lemma ExactlyOneActiveCard(active: DisguiseType)
    ensures exists i :: 0 <= i < |DISGUISES| && DISGUISES[i] == active && ActiveMarks(active)[i]
    ensures forall i, j ::
              (0 <= i < |DISGUISES| && 0 <= j < |DISGUISES| && ActiveMarks(active)[i] && ActiveMarks(active)[j])
              ==> i == j
  {
    var k := match active case Calculator => 0 case Notes => 1 case Clock => 2;
    assert DISGUISES[k] == active && ActiveMarks(active)[k];
  }

  /**
   * `handleSelect(id)`: awaits the save of the new disguise, then locks. The lock
   * happens whatever the prior unlock state, also when `id` is already active and
   * also when the write fails (the store swallows the error).
   */
  method HandleSelect(app: AppState, id: DisguiseType, writeFails: bool)
    modifies app, app.store
    ensures app.Fields() == old(app.Fields()).(activeDisguise := id, isUnlocked := false)
    ensures app.store.data == SetItem(old(app.store.data), ACTIVE_DISGUISE_KEY, DisguiseV(id), writeFails)
    ensures app.store.log == old(app.store.log) + [ACTIVE_DISGUISE_KEY]
  {
    app.SetActiveDisguise(id, writeFails);
    app.Lock();
  }
}
