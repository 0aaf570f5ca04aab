// No Trove transaction is sent while an earlier one lacks an observed receipt,
// for any mix of tabs, reports, closed tabs and storage failures.

module TroveSafety {
  import opened Wrappers
  import opened TroveRecords
  import opened TroveTabs

  // ------------------------------------------------------ what records may claim

  // Hashes told to a record's store, receipts seen, and ids given out so far.
  datatype Facts = Facts(told: map<int, int>, observed: set<int>, next: int)

  function FactsOf(w: World): Facts {
    Facts(w.told, w.observed, w.next)
  }

  // A hash is the one the wallet gave for this action, and a resolved record
  // rests on an observed receipt.
  ghost predicate Known(k: Facts, r: Record) {
    && Sound(r) && r.id < k.next
    && (r.hash.Some? ==> r.id in k.told && k.told[r.id] == r.hash.value)
    && (!Unresolved(r) ==> r.hash.value in k.observed)
  }

  ghost predicate KnownAll(k: Facts, records: map<int, Record>) {
    forall id :: id in records ==> records[id].id == id && Known(k, records[id])
  }

  ghost predicate KnownShared(k: Facts, shared: Shared) {
    && (forall report :: report in shared.reports ==> KnownAll(k, shared.reports[report]))
    && (shared.guard.Some? ==> Known(k, shared.guard.value) && Unresolved(shared.guard.value))
  }

  ghost predicate Later(k: Facts, l: Facts) {
    && (forall id :: id in k.told ==> id in l.told && l.told[id] == k.told[id])
    && (forall h :: h in k.observed ==> h in l.observed) && k.next <= l.next
  }

  lemma KnownLater(k: Facts, l: Facts, records: map<int, Record>)
    requires Later(k, l) && KnownAll(k, records)
    ensures KnownAll(l, records)
  {
  }

  lemma KnownSharedLater(k: Facts, l: Facts, shared: Shared)
    requires Later(k, l) && KnownShared(k, shared)
    ensures KnownShared(l, shared)
  {
    forall report | report in shared.reports
      ensures KnownAll(l, shared.reports[report])
    {
      KnownLater(k, l, shared.reports[report]);
    }
  }

  // ----------------------------------------------------------- single operations

  lemma MergedKnown(k: Facts, local: Local, stored: map<int, Record>)
    requires KnownAll(k, local.memory) && KnownAll(k, stored)
    ensures KnownAll(k, Merged(local, stored))
  {
  }

  lemma RecordsKnown(k: Facts, local: Local, shared: Shared, report: int, f: Faults)
    requires KnownAll(k, local.memory) && KnownShared(k, shared)
    ensures KnownAll(k, Records(local, shared, report, f))
  {
    MergedKnown(k, local, Stored(shared, report));
  }

  // An update puts up or leaves its own guard while unresolved, and takes down
  // no guard but its own when resolved.
  ghost predicate GuardMove(before: Option<Record>, record: Record, after: Option<Record>) {
    || after == before
    || (Unresolved(record) && after == Some(record))
    || (!Unresolved(record) && before.Some? && before.value.id == record.id && after.None?)
  }

  lemma UpdatedKnown(k: Facts, local: Local, shared: Shared, report: int, r: Record, f: Faults)
    requires KnownAll(k, local.memory) && KnownShared(k, shared) && Known(k, r)
    ensures var saved := Updated(local, shared, report, r, f);
            && KnownAll(k, saved.local.memory) && KnownShared(k, saved.shared)
            && Known(k, saved.record) && saved.record.id == r.id && (!Unresolved(r) ==> !Unresolved(saved.record))
            && GuardMove(shared.guard, saved.record, saved.shared.guard)
  {
    RecordsKnown(k, local, shared, report, f);
  }

  lemma CancelledKnown(k: Facts, local: Local, shared: Shared, report: int, r: Record, f: Faults)
    requires KnownAll(k, local.memory) && KnownShared(k, shared)
    ensures var (after, open) := Cancelled(local, shared, report, r, f);
            && KnownAll(k, after.memory) && KnownShared(k, open)
            && (open.guard == shared.guard || (open.guard.None? && shared.guard.Some? && shared.guard.value.id == r.id))
  {
    RecordsKnown(k, local, shared.(guard := None), report, f);
  }

  // ------------------------------------------------------------------- invariant

  ghost predicate TabsKnown(w: World) {
    && (forall t :: t in w.tabs ==> KnownAll(FactsOf(w), w.tabs[t].local.memory))
    && (forall c :: c in w.confirms ==>
          KnownAll(FactsOf(w), w.confirms[c].other.memory) && Known(FactsOf(w), w.confirms[c].record))
  }

  // With the wallet, or sent without an observed receipt.
  predicate Live(w: World, id: int) {
    id in w.asked || (id in w.sent && w.sent[id] !in w.observed)
  }

  // A live action is the guarded one.
  ghost predicate Guarded(w: World) {
    && (forall id :: id in w.asked ==> w.shared.guard.Some? && w.shared.guard.value.id == id)
    && (forall id :: id in w.sent && w.sent[id] !in w.observed ==>
          w.shared.guard.Some? && w.shared.guard.value.id == id)
  }

  // A handler past begin holds the lock and its own guard, and nobody else
  // knows a hash of its action yet.
  ghost predicate Signing(w: World, record: Record) {
    && w.shared.guard.Some? && w.shared.guard.value.id == record.id
    && Sound(record) && record.hash.None? && record.id < w.next && record.id !in w.told
  }

  ghost predicate PhaseOk(w: World, t: int)
    requires t in w.tabs
  {
    match w.tabs[t].phase
    case Idle => true
    case Holding => w.lock == Some(t)
    case Ready(r) => w.lock == Some(t) && Signing(w, r) && r.id !in w.sent && r.id !in w.asked
    case Asked(r) => w.lock == Some(t) && Signing(w, r)
    case Returned(r, answer) =>
      w.lock == Some(t) && Signing(w, r) && (answer.Some? ==> r.id in w.sent && answer.value == w.sent[r.id])
  }

  ghost predicate Safe(w: World) {
    && TabsKnown(w) && KnownShared(FactsOf(w), w.shared) && Guarded(w)
    && (forall t :: t in w.tabs ==> PhaseOk(w, t))
    && (forall id :: id in w.told ==> id in w.sent && w.sent[id] == w.told[id])
    && (forall id :: id in w.sent ==> id < w.next && id !in w.asked)
  }

  lemma EmptySafe()
    ensures Safe(EMPTY)
  {
  }

  // ----------------------------------------------------------------- every step

  lemma OthersIdle(w: World, t: int)
    requires Safe(w) && w.lock == Some(t)
    ensures forall u :: u in w.tabs && u != t ==> w.tabs[u].phase.Idle?
  {
    forall u | u in w.tabs && u != t
      ensures w.tabs[u].phase.Idle?
    {
      assert PhaseOk(w, u);
    }
  }

  // What tabs and confirmations know stays known when one tab changes.
  lemma TabChanged(w: World, w': World, t: int, tab: Tab)
    requires TabsKnown(w) && Later(FactsOf(w), FactsOf(w')) && KnownAll(FactsOf(w'), tab.local.memory)
    requires w'.tabs == w.tabs[t := tab] && w'.confirms == w.confirms
    ensures TabsKnown(w')
  {
    forall u | u in w'.tabs
      ensures KnownAll(FactsOf(w'), w'.tabs[u].local.memory)
    {
      if u != t {
        KnownLater(FactsOf(w), FactsOf(w'), w.tabs[u].local.memory);
      }
    }
    forall c | c in w'.confirms
      ensures KnownAll(FactsOf(w'), w'.confirms[c].other.memory) && Known(FactsOf(w'), w'.confirms[c].record)
    {
      KnownLater(FactsOf(w), FactsOf(w'), w.confirms[c].other.memory);
    }
  }

  // A step of the lock holder that leaves it in a good phase.
  lemma HolderMoved(w: World, w': World, t: int, tab: Tab)
    requires Safe(w) && w.lock == Some(t) && Later(FactsOf(w), FactsOf(w'))
    requires w'.tabs == w.tabs[t := tab] && w'.confirms == w.confirms && KnownAll(FactsOf(w'), tab.local.memory)
    requires KnownShared(FactsOf(w'), w'.shared) && Guarded(w') && PhaseOk(w', t)
    requires forall id :: id in w'.told ==> id in w'.sent && w'.sent[id] == w'.told[id]
    requires forall id :: id in w'.sent ==> id < w'.next && id !in w'.asked
    ensures Safe(w')
  {
    TabChanged(w, w', t, tab);
    OthersIdle(w, t);
  }

  // While the guarded action is not sent, no other is live.
  lemma NoneLive(w: World)
    requires Safe(w) && (w.shared.guard.Some? ==> w.shared.guard.value.id !in w.sent)
    ensures forall id :: id in w.sent ==> w.sent[id] in w.observed
    ensures forall id :: id in w.asked ==> w.shared.guard.Some? && w.shared.guard.value.id == id
  {
  }

  // Begin goes ahead only without a guard, and leaves its own in place.
  lemma BegunKnown(k: Facts, l: Facts, local: Local, shared: Shared, report: int, f: Faults, later: Faults)
    requires KnownAll(k, local.memory) && KnownShared(k, shared) && l == Facts(k.told, k.observed, k.next + 1)
    requires Begun(local, shared, report, k.next, f, later).Some?
    ensures var saved := Begun(local, shared, report, k.next, f, later).value;
            && shared.guard.None? && saved.record == Record(k.next, report, None, Awaiting, None, None)
            && KnownAll(l, saved.local.memory) && KnownShared(l, saved.shared) && saved.shared.guard == Some(saved.record)
  {
    var r := Record(k.next, report, None, Awaiting, None, None);
    KnownLater(k, l, local.memory);
    KnownSharedLater(k, l, shared);
    UpdatedKnown(l, local, shared.(guard := Some(r)), report, r, later);
    FreshRecord(k, local, shared.(guard := Some(r)), report, r, later);
  }

  lemma SafeBegin(w: World, t: int, f: Faults, later: Faults)
    requires Safe(w) && t in w.tabs && w.tabs[t].phase.Holding?
    ensures Safe(Begins(w, t, f, later))
  {
    var tab, w' := w.tabs[t], Begins(w, t, f, later);
    assert PhaseOk(w, t);
    if Begun(tab.local, w.shared, tab.report, w.next, f, later).Some? {
      BegunKnown(FactsOf(w), FactsOf(w'), tab.local, w.shared, tab.report, f, later);
      NoneLive(w);
    }
    HolderMoved(w, w', t, w'.tabs[t]);
  }

  // A new action is not found in any earlier record.
  lemma FreshRecord(k: Facts, local: Local, shared: Shared, report: int, r: Record, f: Faults)
    requires KnownAll(k, local.memory) && (forall p :: p in shared.reports ==> KnownAll(k, shared.reports[p]))
    requires r.id >= k.next
    ensures Updated(local, shared, report, r, f).record == r
  {
    MergedKnown(k, local, Stored(shared, report));
  }

  lemma SafeReject(w: World, t: int, r: Record, f: Faults)
    requires Safe(w) && t in w.tabs && MayReject(w, w.tabs[t].phase) && w.tabs[t].phase.record == r
    ensures Safe(Rejects(w, t, r, f))
  {
    var tab, w' := w.tabs[t], Rejects(w, t, r, f);
    assert PhaseOk(w, t);
    NoneLive(w);
    CancelledKnown(FactsOf(w), tab.local, w.shared, tab.report, r, f);
    HolderMoved(w, w', t, w'.tabs[t]);
  }

  lemma SafeAsk(w: World, a: Action)
    requires Safe(w) && Step(w, a).Some? && (a.Ask? || a.Answer?)
    ensures Safe(Step(w, a).value)
  {
    var w' := Step(w, a).value;
    assert PhaseOk(w, a.tab);
    HolderMoved(w, w', a.tab, w'.tabs[a.tab]);
  }

  lemma SafeSend(w: World, id: int, hash: int)
    requires Safe(w) && id in w.asked
    ensures Safe(Step(w, Send(id, hash)).value)
  {
    var w' := Step(w, Send(id, hash)).value;
    forall t | t in w'.tabs
      ensures PhaseOk(w', t) && KnownAll(FactsOf(w'), w'.tabs[t].local.memory)
    {
      assert PhaseOk(w, t);
    }
  }

  lemma SafeSave(w: World, t: int, r: Record, answer: Option<int>, f: Faults)
    requires Safe(w) && t in w.tabs && w.tabs[t].phase == Returned(r, answer)
    ensures ValidRecord(Completed(r, answer)) && Safe(Saves(w, t, r, answer, f))
  {
    var tab, w' := w.tabs[t], Saves(w, t, r, answer, f);
    assert PhaseOk(w, t);
    var completed := Completed(r, answer);
    var k, l := FactsOf(w), FactsOf(w');
    KnownLater(k, l, tab.local.memory);
    KnownSharedLater(k, l, w.shared);
    UpdatedKnown(l, tab.local, w.shared, tab.report, completed, f);
    StaysUnresolved(k, tab.local, w.shared, tab.report, completed, f);
    HolderMoved(w, w', t, w'.tabs[t]);
  }

  // Nobody who has not been told a hash can have resolved the action.
  lemma StaysUnresolved(k: Facts, local: Local, shared: Shared, report: int, r: Record, f: Faults)
    requires KnownAll(k, local.memory) && KnownShared(k, shared) && r.id !in k.told && Unresolved(r)
    ensures Unresolved(Updated(local, shared, report, r, f).record)
  {
    RecordsKnown(k, local, shared, report, f);
  }

  // ------------------------------------------------------- steps outside the lock

  // A resolved record of an action whose hash was told leaves handlers alone.
  lemma PhasesStay(w: World, w': World, record: Record)
    requires Safe(w) && w'.lock == w.lock && w'.sent == w.sent && w'.told == w.told
    requires w'.next == w.next && w'.asked == w.asked
    requires forall t :: t in w'.tabs ==> t in w.tabs && w'.tabs[t].phase == w.tabs[t].phase
    requires GuardMove(w.shared.guard, record, w'.shared.guard) && !Unresolved(record) && record.id in w.told
    ensures forall t :: t in w'.tabs ==> PhaseOk(w', t)
  {
    forall t | t in w'.tabs
      ensures PhaseOk(w', t)
    {
      assert PhaseOk(w, t);
    }
  }

  lemma SafeReports(w: World, call: int, record: Record, f: Faults, observed: set<int>)
    requires Safe(w) && call in w.confirms && w.confirms[call].tab in w.tabs && w.observed <= observed
    requires !Unresolved(record) && Known(Facts(w.told, observed, w.next), record)
    ensures Safe(Reports(w, call, record, f).(observed := observed))
  {
    var c := w.confirms[call];
    var tab := w.tabs[c.tab];
    var w' := Reports(w, call, record, f).(observed := observed);
    var k, l := FactsOf(w), FactsOf(w');
    var own := record.report == tab.report;
    var local := if own then tab.local else c.other;
    KnownLater(k, l, local.memory);
    KnownSharedLater(k, l, w.shared);
    UpdatedKnown(l, local, w.shared, record.report, record, f);
    var saved := Updated(local, w.shared, record.report, record, f);
    ConfirmChanged(w, w', call, if own then tab.(local := saved.local) else tab, w'.confirms[call]);
    GuardedStays(w, w', saved.record);
    PhasesStay(w, w', saved.record);
  }

  lemma ConfirmChanged(w: World, w': World, call: int, tab: Tab, c: Confirm)
    requires TabsKnown(w) && Later(FactsOf(w), FactsOf(w')) && c.tab in w.tabs
    requires KnownAll(FactsOf(w'), tab.local.memory) || tab == w.tabs[c.tab]
    requires KnownAll(FactsOf(w'), c.other.memory) || (call in w.confirms && c.other == w.confirms[call].other)
    requires Known(FactsOf(w'), c.record)
    requires w'.tabs == w.tabs[c.tab := tab] && w'.confirms == w.confirms[call := c]
    ensures TabsKnown(w')
  {
    forall u | u in w'.tabs
      ensures KnownAll(FactsOf(w'), w'.tabs[u].local.memory)
    {
      if u != c.tab || tab == w.tabs[u] {
        KnownLater(FactsOf(w), FactsOf(w'), w.tabs[u].local.memory);
      }
    }
    forall d | d in w'.confirms
      ensures KnownAll(FactsOf(w'), w'.confirms[d].other.memory) && Known(FactsOf(w'), w'.confirms[d].record)
    {
      if d in w.confirms {
        KnownLater(FactsOf(w), FactsOf(w'), w.confirms[d].other.memory);
      }
    }
  }

  // A guard is taken down only for an action whose receipt has been observed.
  lemma GuardedStays(w: World, w': World, record: Record)
    requires Safe(w) && w'.sent == w.sent && w'.told == w.told && w'.asked == w.asked && w.observed <= w'.observed
    requires GuardMove(w.shared.guard, record, w'.shared.guard)
    requires !Unresolved(record) && Known(FactsOf(w'), record)
    ensures Guarded(w')
  {
  }

  lemma SafeReceipt(w: World, call: int, good: bool, f: Faults)
    requires Safe(w) && call in w.confirms && w.confirms[call].tab in w.tabs && w.confirms[call].record.hash.Some?
    ensures Safe(Step(w, Receipt(call, good, f)).value)
  {
    var record := w.confirms[call].record;
    SafeReports(w, call, Resolved(record, good), f, w.observed + {record.hash.value});
  }

  lemma SafeObserve(w: World, call: int, block: nat, f: Faults)
    requires Safe(w) && call in w.confirms && w.confirms[call].tab in w.tabs
    requires w.confirms[call].record.state.Confirmed?
    ensures Safe(Step(w, Observe(call, block, f)).value)
  {
    SafeReports(w, call, w.confirms[call].record.(observed := Some(block)), f, w.observed);
  }

  lemma SafeStart(w: World, t: int, call: int, id: int, f: Faults)
    requires Safe(w) && Step(w, StartConfirm(t, call, id, f)).Some?
    ensures Safe(Step(w, StartConfirm(t, call, id, f)).value)
  {
    var w' := Step(w, StartConfirm(t, call, id, f)).value;
    var r := Confirmable(w.tabs[t], w.shared, id, f).value;
    assert KnownAll(FactsOf(w), w.tabs[t].local.memory);
    assert Known(FactsOf(w), r);
    ConfirmChanged(w, w', call, w.tabs[t], w'.confirms[call]);
    forall u | u in w'.tabs
      ensures PhaseOk(w', u)
    {
      assert PhaseOk(w, u);
    }
  }

  lemma SafeRefresh(w: World, t: int, f: Faults)
    requires Safe(w) && t in w.tabs
    ensures Safe(Step(w, Refresh(t, f)).value)
  {
    var w' := Step(w, Refresh(t, f)).value;
    RecordsKnown(FactsOf(w), w.tabs[t].local, w.shared, w.tabs[t].report, f);
    TabChanged(w, w', t, w'.tabs[t]);
    forall u | u in w'.tabs
      ensures PhaseOk(w', u)
    {
      assert PhaseOk(w, u);
    }
  }

  lemma SafeQuiet(w: World, a: Action)
    requires Safe(w) && Step(w, a).Some? && (a.Open? || a.Close? || a.Acquire? || a.Release?)
    ensures Safe(Step(w, a).value)
  {
    var w' := Step(w, a).value;
    forall u | u in w'.tabs
      ensures PhaseOk(w', u) && KnownAll(FactsOf(w'), w'.tabs[u].local.memory)
    {
      assert u in w.tabs ==> PhaseOk(w, u);
    }
  }

  lemma StepSafe(w: World, a: Action)
    requires Safe(w) && Step(w, a).Some?
    ensures Safe(Step(w, a).value)
  {
    match a {
      case Refresh(t, f) => SafeRefresh(w, t, f);
      case Begin(t, f, later) => SafeBegin(w, t, f, later);
      case Reject(t, f) => SafeReject(w, t, w.tabs[t].phase.record, f);
      case Ask(_) => SafeAsk(w, a);
      case Answer(_, _) => SafeAsk(w, a);
      case Send(id, hash) => SafeSend(w, id, hash);
      case Save(t, f) => SafeSave(w, t, w.tabs[t].phase.record, w.tabs[t].phase.answer, f);
      case StartConfirm(t, call, id, f) => SafeStart(w, t, call, id, f);
      case Receipt(call, good, f) => SafeReceipt(w, call, good, f);
      case Observe(call, block, f) => SafeObserve(w, call, block, f);
      case _ => SafeQuiet(w, a);
    }
  }

  lemma {:induction false} RunSafe(w: World, actions: seq<Action>)
    requires Safe(w) && Run(w, actions).Some?
    ensures Safe(Run(w, actions).value)
    decreases |actions|
  {
    if actions != [] {
      StepSafe(w, actions[0]);
      RunSafe(Step(w, actions[0]).value, actions[1..]);
    }
  }

  // ------------------------------------------------------------------ guarantees

  ghost predicate Reachable(w: World) {
    exists actions :: Run(EMPTY, actions) == Some(w)
  }

  lemma ReachableSafe(w: World)
    requires Reachable(w)
    ensures Safe(w)
  {
    var actions :| Run(EMPTY, actions) == Some(w);
    EmptySafe();
    RunSafe(EMPTY, actions);
  }

  // A transaction is sent only when every earlier one has an observed receipt,
  // and no second request is with the wallet.
  lemma SendsOneAtATime(w: World, id: int, hash: int)
    requires Reachable(w) && Step(w, Send(id, hash)).Some?
    ensures forall earlier :: earlier in w.sent ==> earlier != id && w.sent[earlier] in w.observed
    ensures w.asked == {id}
  {
    ReachableSafe(w);
    NoneLive(w);
    assert forall other :: other in w.asked ==> other == id;
  }

  // After a send, saving the answer never throws, so the branch that cancels
  // never drops the guard of a live action.
  lemma SavingNeverCancels(w: World, t: int, f: Faults)
    requires Reachable(w) && Step(w, Save(t, f)).Some?
    ensures ValidRecord(Completed(w.tabs[t].phase.record, w.tabs[t].phase.answer))
    ensures Step(w, Save(t, f)).value.shared.guard.Some?
  {
    ReachableSafe(w);
    SafeSave(w, t, w.tabs[t].phase.record, w.tabs[t].phase.answer, f);
    var tab := w.tabs[t];
    assert PhaseOk(w, t);
    StaysUnresolved(FactsOf(w), tab.local, w.shared, tab.report, Completed(tab.phase.record, tab.phase.answer), f);
  }

  // A guard goes down, or another takes its place, only when its action is
  // neither with the wallet nor sent without an observed receipt.
  lemma GuardOutlivesAction(w: World, a: Action)
    requires Reachable(w) && Step(w, a).Some? && w.shared.guard.Some?
    ensures var w', id := Step(w, a).value, w.shared.guard.value.id;
            || (w'.shared.guard.Some? && w'.shared.guard.value.id == id)
            || !Live(w', id)
  {
    ReachableSafe(w);
    StepSafe(w, a);
  }

  function GuardId(w: World): Option<int> {
    if w.shared.guard.Some? then Some(w.shared.guard.value.id) else None
  }

  // The action that a step may take the guard of down.
  function Acting(w: World, a: Action): Option<int> {
    match a
    case Reject(t, _) => if t in w.tabs && !w.tabs[t].phase.Idle? && !w.tabs[t].phase.Holding? then Some(w.tabs[t].phase.record.id) else None
    case Receipt(call, _, _) => if call in w.confirms then Some(w.confirms[call].record.id) else None
    case Observe(call, _, _) => if call in w.confirms then Some(w.confirms[call].record.id) else None
    case _ => None
  }

  // The guard of an action comes up only when that action begins, over no other
  // guard, and goes down only by a rejection, receipt or observation of its own.
  lemma GuardMovesAlone(w: World, a: Action)
    requires Reachable(w) && Step(w, a).Some?
    ensures var before, after := GuardId(w), GuardId(Step(w, a).value);
            || after == before
            || (a.Begin? && before.None? && after == Some(w.next))
            || (after.None? && before == Acting(w, a))
  {
    ReachableSafe(w);
    match a {
      case Begin(t, f, later) => BeginRaises(w, t, f, later);
      case Save(t, f) => SaveKeepsGuard(w, t, f);
      case Reject(t, f) => CancelledKnown(FactsOf(w), w.tabs[t].local, w.shared, w.tabs[t].report, w.tabs[t].phase.record, f);
      case Receipt(call, good, f) =>
        var record := w.confirms[call].record;
        ReportMoves(w, call, Resolved(record, good), f, w.observed + {record.hash.value});
      case Observe(call, block, f) => ReportMoves(w, call, w.confirms[call].record.(observed := Some(block)), f, w.observed);
      case _ =>
    }
  }

  lemma BeginRaises(w: World, t: int, f: Faults, later: Faults)
    requires Safe(w) && t in w.tabs
    ensures var after := GuardId(Begins(w, t, f, later));
            after == GuardId(w) || (GuardId(w).None? && after == Some(w.next))
  {
    var tab := w.tabs[t];
    if Begun(tab.local, w.shared, tab.report, w.next, f, later).Some? {
      BegunKnown(FactsOf(w), Facts(w.told, w.observed, w.next + 1), tab.local, w.shared, tab.report, f, later);
    }
  }

  lemma SaveKeepsGuard(w: World, t: int, f: Faults)
    requires Safe(w) && t in w.tabs && w.tabs[t].phase.Returned?
    ensures GuardId(Saves(w, t, w.tabs[t].phase.record, w.tabs[t].phase.answer, f)) == GuardId(w)
  {
    var r, answer := w.tabs[t].phase.record, w.tabs[t].phase.answer;
    assert PhaseOk(w, t);
    SafeSave(w, t, r, answer, f);
    var tab := w.tabs[t];
    var l := FactsOf(Saves(w, t, r, answer, f));
    KnownLater(FactsOf(w), l, tab.local.memory);
    KnownSharedLater(FactsOf(w), l, w.shared);
    StaysUnresolved(FactsOf(w), tab.local, w.shared, tab.report, Completed(r, answer), f);
    UpdatedKnown(l, tab.local, w.shared, tab.report, Completed(r, answer), f);
  }

  lemma ReportMoves(w: World, call: int, record: Record, f: Faults, observed: set<int>)
    requires Safe(w) && call in w.confirms && w.confirms[call].tab in w.tabs && w.observed <= observed
    requires !Unresolved(record) && Known(Facts(w.told, observed, w.next), record)
    ensures var after := GuardId(Reports(w, call, record, f));
            after == GuardId(w) || (after.None? && GuardId(w) == Some(record.id))
  {
    var c := w.confirms[call];
    var tab := w.tabs[c.tab];
    var l := Facts(w.told, observed, w.next);
    var local := if record.report == tab.report then tab.local else c.other;
    KnownLater(FactsOf(w), l, local.memory);
    KnownSharedLater(FactsOf(w), l, w.shared);
    UpdatedKnown(l, local, w.shared, record.report, record, f);
  }

  // A guard that went down, or was never put up, does not come back: no stale
  // update resurrects it in any continuation.
  lemma {:induction false} GuardNeverBack(w: World, actions: seq<Action>, id: int)
    requires Reachable(w) && Run(w, actions).Some? && id < w.next && GuardId(w) != Some(id)
    ensures GuardId(Run(w, actions).value) != Some(id)
    decreases |actions|
  {
    if actions != [] {
      var next := Step(w, actions[0]).value;
      GuardMovesAlone(w, actions[0]);
      ReachableOn(w, actions[0]);
      GuardNeverBack(next, actions[1..], id);
    }
  }

  lemma ReachableOn(w: World, a: Action)
    requires Reachable(w) && Step(w, a).Some?
    ensures Reachable(Step(w, a).value) && w.next <= Step(w, a).value.next
  {
    var actions :| Run(EMPTY, actions) == Some(w);
    RunAppend(EMPTY, actions, a);
    assert Run(EMPTY, actions + [a]) == Step(w, a);
  }

  lemma {:induction false} RunAppend(w: World, actions: seq<Action>, a: Action)
    requires Run(w, actions).Some?
    ensures Run(w, actions + [a]) == Step(Run(w, actions).value, a)
    decreases |actions|
  {
    if actions == [] {
      assert ([a])[1..] == [] && actions + [a] == [a];
    } else {
      assert (actions + [a])[0] == actions[0] && (actions + [a])[1..] == actions[1..] + [a];
      RunAppend(Step(w, actions[0]).value, actions[1..], a);
    }
  }
}
