// Tabs that sign Trove actions under one lock per borrower, with storage that
// may fail at any call, tabs that may close at any moment and confirmations
// that run outside the lock.

module TroveTabs {
  import opened Wrappers
  import opened TroveRecords

  // Where a signing handler stands between two awaits.
  datatype Phase =
    | Idle
    | Holding                                       // has the lock, nothing begun or all saved
    | Ready(record: Record)                         // intent stored, wallet not asked yet
    | Asked(record: Record)                         // the wallet has the request
    | Returned(record: Record, answer: Option<int>) // the hash, or an outcome that is unknown

  datatype Tab = Tab(report: int, local: Local, phase: Phase)

  // A confirmation in flight, with the store it would use for another report.
  datatype Confirm = Confirm(tab: int, record: Record, other: Local)

  // The wallet holds a request until it sends it or reports a rejection, even
  // when the tab that asked is gone.
  datatype World = World(tabs: map<int, Tab>, confirms: map<int, Confirm>, shared: Shared, lock: Option<int>,
                         asked: set<int>, sent: map<int, int>, told: map<int, int>, observed: set<int>, next: int)

  datatype Action =
    | Open(tab: int, report: int)
    | Close(tab: int)
    | Refresh(tab: int, faults: Faults)
    | Acquire(tab: int)
    | Release(tab: int)
    | Begin(tab: int, faults: Faults, later: Faults)
    | Reject(tab: int, faults: Faults)
    | Ask(tab: int)
    | Send(id: int, hash: int)
    | Answer(tab: int, known: bool)
    | Save(tab: int, faults: Faults)
    | StartConfirm(tab: int, call: int, id: int, faults: Faults)
    | Receipt(call: int, good: bool, faults: Faults)
    | Observe(call: int, block: nat, faults: Faults)

  const EMPTY := World(map[], map[], Shared(None, map[]), None, {}, map[], map[], {}, 0)

  // ------------------------------------------------------------------------ steps

  function WithTab(w: World, t: int, tab: Tab, shared: Shared): World {
    w.(tabs := w.tabs[t := tab], shared := shared)
  }

  function Freed(w: World): World {
    w.(lock := None)
  }

  // The record sent with, as the wallet's answer completes it.
  function Completed(record: Record, answer: Option<int>): Record {
    if answer.Some? then record.(hash := answer, state := Pending) else record.(state := Unknown)
  }

  function Resolved(record: Record, good: bool): Record {
    record.(receipt := Some(good), state := if good then Confirmed else Reverted)
  }

  function Begins(w: World, t: int, f: Faults, later: Faults): World
    requires t in w.tabs
  {
    var tab := w.tabs[t];
    match Begun(tab.local, w.shared, tab.report, w.next, f, later)
    case None => Freed(WithTab(w, t, tab.(phase := Idle), w.shared))
    case Some(saved) =>
      WithTab(w, t, tab.(local := saved.local, phase := Ready(saved.record)), saved.shared).(next := w.next + 1)
  }

  function Rejects(w: World, t: int, record: Record, f: Faults): World
    requires t in w.tabs
  {
    var tab := w.tabs[t];
    var (local, shared) := Cancelled(tab.local, w.shared, tab.report, record, f);
    Freed(WithTab(w, t, tab.(local := local, phase := Idle), shared)).(asked := w.asked - {record.id})
  }

  // After the wallet sent: an invalid record would make update throw, and the
  // handler would take its cancel branch.
  function Saves(w: World, t: int, record: Record, answer: Option<int>, f: Faults): World
    requires t in w.tabs
  {
    var tab := w.tabs[t];
    var completed := Completed(record, answer);
    if !ValidRecord(completed) then Rejects(w, t, record, f)
    else
      var saved := Updated(tab.local, w.shared, tab.report, completed, f);
      var kept := WithTab(w, t, tab.(local := saved.local, phase := if answer.Some? then Holding else Idle), saved.shared);
      if answer.Some? then kept.(told := w.told[record.id := answer.value]) else Freed(kept)
  }

  // Updating through the tab's own store, or through one made for the other report.
  function Reports(w: World, call: int, record: Record, f: Faults): World
    requires call in w.confirms && w.confirms[call].tab in w.tabs
  {
    var c := w.confirms[call];
    var tab := w.tabs[c.tab];
    if record.report == tab.report then
      var saved := Updated(tab.local, w.shared, tab.report, record, f);
      WithTab(w, c.tab, tab.(local := saved.local), saved.shared)
        .(confirms := w.confirms[call := c.(record := saved.record)])
    else
      var saved := Updated(c.other, w.shared, record.report, record, f);
      w.(shared := saved.shared, confirms := w.confirms[call := c.(record := saved.record, other := saved.local)])
  }

  // The record that a confirmation starts from: in memory, or the guard's.
  function Confirmable(tab: Tab, shared: Shared, id: int, f: Faults): Option<Record> {
    var mine := Find(tab.local.memory, id);
    if mine.Some? && mine.value.hash.Some? then mine
    else
      match UnresolvedIn(tab.local, shared, f)
      case Err(_) => None
      case Ok(guarded) => if guarded.Some? && guarded.value.hash.Some? then guarded else None
  }

  // Refused before the wallet was asked, or rejected in the wallet, which
  // proves that nothing was sent.
  predicate MayReject(w: World, phase: Phase) {
    phase.Ready? || (phase.Asked? && phase.record.id !in w.sent)
  }

  function Step(w: World, a: Action): Option<World> {
    match a
    case Open(t, report) =>
      if t in w.tabs then None else Some(w.(tabs := w.tabs[t := Tab(report, Local(map[], {}), Idle)]))
    case Close(t) =>
      Some(w.(tabs := w.tabs - {t}, lock := if w.lock == Some(t) then None else w.lock))
    case Refresh(t, f) =>
      if t !in w.tabs then None
      else
        var tab := w.tabs[t];
        var memory := Records(tab.local, w.shared, tab.report, f);
        Some(WithTab(w, t, tab.(local := tab.local.(memory := memory)), w.shared))
    case Acquire(t) =>
      if t !in w.tabs || w.lock.Some? then None
      else Some(WithTab(w, t, w.tabs[t].(phase := Holding), w.shared).(lock := Some(t)))
    case Release(t) =>
      if t !in w.tabs || !w.tabs[t].phase.Holding? then None
      else Some(Freed(WithTab(w, t, w.tabs[t].(phase := Idle), w.shared)))
    case Begin(t, f, later) =>
      if t !in w.tabs || !w.tabs[t].phase.Holding? then None else Some(Begins(w, t, f, later))
    case Reject(t, f) =>
      if t !in w.tabs || !MayReject(w, w.tabs[t].phase) then None else Some(Rejects(w, t, w.tabs[t].phase.record, f))
    case Ask(t) =>
      if t !in w.tabs || !w.tabs[t].phase.Ready? then None
      else
        var record := w.tabs[t].phase.record;
        Some(WithTab(w, t, w.tabs[t].(phase := Asked(record)), w.shared).(asked := w.asked + {record.id}))
    case Send(id, hash) =>
      if id !in w.asked then None else Some(w.(asked := w.asked - {id}, sent := w.sent[id := hash]))
    case Answer(t, known) =>
      if t !in w.tabs || !w.tabs[t].phase.Asked? then None
      else
        var record := w.tabs[t].phase.record;
        if known && record.id !in w.sent then None
        else
          var answer := if known then Some(w.sent[record.id]) else None;
          Some(WithTab(w, t, w.tabs[t].(phase := Returned(record, answer)), w.shared))
    case Save(t, f) =>
      if t !in w.tabs || !w.tabs[t].phase.Returned? then None
      else Some(Saves(w, t, w.tabs[t].phase.record, w.tabs[t].phase.answer, f))
    case StartConfirm(t, call, id, f) =>
      if t !in w.tabs || call in w.confirms then None
      else
        var found := Confirmable(w.tabs[t], w.shared, id, f);
        if found.None? then None
        else Some(w.(confirms := w.confirms[call := Confirm(t, found.value, Local(map[], {}))]))
    case Receipt(call, good, f) =>
      if call !in w.confirms || w.confirms[call].tab !in w.tabs || w.confirms[call].record.hash.None? then None
      else
        var record := w.confirms[call].record;
        Some(Reports(w, call, Resolved(record, good), f).(observed := w.observed + {record.hash.value}))
    case Observe(call, block, f) =>
      if call !in w.confirms || w.confirms[call].tab !in w.tabs || !w.confirms[call].record.state.Confirmed? then None
      else Some(Reports(w, call, w.confirms[call].record.(observed := Some(block)), f))
  }

  function Run(w: World, actions: seq<Action>): Option<World>
    decreases |actions|
  {
    if actions == [] then Some(w)
    else
      match Step(w, actions[0])
      case None => None
      case Some(next) => Run(next, actions[1..])
  }
}
