// One run of the Trove panel in full: an action is begun, sent, confirmed and
// cleared, so that the next one may begin.

module TroveSample {
  import opened Wrappers
  import opened TroveRecords
  import opened TroveTabs
  import opened TroveSafety

  const TAB: int := 1
  const REPORT: int := 2
  const CALL: int := 3
  const HASH: int := 4

  const FINE := Faults(false, false, false, false, false)

  lemma Next(w: World, a: Action, next: World)
    requires Reachable(w) && Step(w, a).Some?
    requires var v := Step(w, a).value;
             && v.tabs == next.tabs && v.confirms == next.confirms && v.shared == next.shared && v.lock == next.lock
             && v.asked == next.asked && v.sent == next.sent && v.told == next.told && v.observed == next.observed
             && v.next == next.next
    ensures Reachable(next)
  {
    var actions :| Run(EMPTY, actions) == Some(w);
    RunAppend(EMPTY, actions, a);
  }

  const INTENT := Record(0, REPORT, None, Awaiting, None, None)
  const PENDING := Record(0, REPORT, Some(HASH), Pending, None, None)
  const DONE := Record(0, REPORT, Some(HASH), Confirmed, Some(true), None)

  // The tab, its memory and the storage all hold the one record.
  function With(r: Record, phase: Phase): World {
    World(map[TAB := Tab(REPORT, Local(map[0 := r], {}), phase)], map[],
          Shared(if Unresolved(r) then Some(r) else None, map[REPORT := map[0 := r]]), Some(TAB),
          {}, map[], map[], {}, 1)
  }

  const START := EMPTY.(tabs := map[TAB := Tab(REPORT, Local(map[], {}), Holding)], lock := Some(TAB))
  const BEGUN := With(INTENT, Ready(INTENT))
  const ASKED := With(INTENT, Asked(INTENT)).(asked := {0})
  const SENT := With(INTENT, Asked(INTENT)).(sent := map[0 := HASH])
  const RETURNED := With(INTENT, Returned(INTENT, Some(HASH))).(sent := map[0 := HASH])
  const SAVED := With(PENDING, Holding).(sent := map[0 := HASH], told := map[0 := HASH])
  const CHECKING := SAVED.(confirms := map[CALL := Confirm(TAB, PENDING, Local(map[], {}))])
  const CLEARED :=
    With(DONE, Holding).(sent := map[0 := HASH], told := map[0 := HASH], observed := {HASH},
                             confirms := map[CALL := Confirm(TAB, DONE, Local(map[], {}))])

  lemma Starts()
    ensures Reachable(START)
  {
    assert Run(EMPTY, []) == Some(EMPTY);
    var idle := EMPTY.(tabs := map[TAB := Tab(REPORT, Local(map[], {}), Idle)]);
    Next(EMPTY, Open(TAB, REPORT), idle);
    Next(idle, Acquire(TAB), START);
  }

  lemma IntentIsSaved()
    ensures Begun(Local(map[], {}), Shared(None, map[]), REPORT, 0, FINE, FINE) ==
            Some(Saved(Local(map[0 := INTENT], {}), Shared(Some(INTENT), map[REPORT := map[0 := INTENT]]), INTENT))
  {
    var local := Local(map[], {});
    assert Records(local, Shared(Some(INTENT), map[]), REPORT, FINE) == map[];
  }

  lemma Sends()
    ensures Reachable(SENT)
  {
    Starts();
    IntentIsSaved();
    Next(START, Begin(TAB, FINE, FINE), BEGUN);
    Next(BEGUN, Ask(TAB), ASKED);
    Next(ASKED, Send(0, HASH), SENT);
  }

  lemma PendingIsSaved()
    ensures Updated(Local(map[0 := INTENT], {}), Shared(Some(INTENT), map[REPORT := map[0 := INTENT]]), REPORT, PENDING, FINE) ==
            Saved(Local(map[0 := PENDING], {}), Shared(Some(PENDING), map[REPORT := map[0 := PENDING]]), PENDING)
  {
    var local, shared := Local(map[0 := INTENT], {}), Shared(Some(INTENT), map[REPORT := map[0 := INTENT]]);
    assert Records(local, shared, REPORT, FINE) == map[0 := INTENT];
  }

  lemma DoneIsSaved()
    ensures Updated(Local(map[0 := PENDING], {}), Shared(Some(PENDING), map[REPORT := map[0 := PENDING]]), REPORT, DONE, FINE) ==
            Saved(Local(map[0 := DONE], {}), Shared(None, map[REPORT := map[0 := DONE]]), DONE)
  {
    var local, shared := Local(map[0 := PENDING], {}), Shared(Some(PENDING), map[REPORT := map[0 := PENDING]]);
    assert Records(local, shared, REPORT, FINE) == map[0 := PENDING];
  }

  lemma SavesSent()
    ensures Reachable(SAVED)
  {
    Sends();
    PendingIsSaved();
    Next(SENT, Answer(TAB, true), RETURNED);
    Next(RETURNED, Save(TAB, FINE), SAVED);
  }

  // An action is sent and its receipt observed; the guard is down again.
  lemma ConfirmedIsReached()
    ensures Reachable(CLEARED)
    ensures CLEARED.shared.guard.None? && CLEARED.sent == map[0 := HASH] && !Live(CLEARED, 0)
  {
    SavesSent();
    DoneIsSaved();
    Next(SAVED, StartConfirm(TAB, CALL, 0, FINE), CHECKING);
    Next(CHECKING, Receipt(CALL, true, FINE), CLEARED);
  }
}
