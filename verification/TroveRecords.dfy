// Records of Trove actions and the store that tabs share through browser
// storage, as values: what one operation makes of a tab and of the storage.

module TroveRecords {
  import opened Wrappers

  datatype State = Awaiting | Pending | Unknown | Confirmed | Reverted

  datatype Record = Record(id: int, report: int, hash: Option<int>, state: State, receipt: Option<bool>,
                           observed: Option<nat>)

  predicate Unresolved(r: Record) {
    !r.state.Confirmed? && !r.state.Reverted?
  }

  // A pending record has its hash, a resolved one its hash and its receipt.
  predicate ValidRecord(r: Record) {
    && (r.state.Pending? ==> r.hash.Some?)
    && (r.state.Confirmed? ==> r.hash.Some? && r.receipt == Some(true))
    && (r.state.Reverted? ==> r.hash.Some? && r.receipt == Some(false))
  }

  // Of two versions of a record, the one that is further along.
  function Advanced(a: Option<Record>, b: Record): Record {
    if a.None? then b
    else if !Unresolved(a.value) && Unresolved(b) then a.value
    else if Unresolved(a.value) && !Unresolved(b) then b
    else if a.value.observed.Some? && (b.observed.None? || a.value.observed.value > b.observed.value) then a.value
    else if a.value.hash.Some? && b.hash.None? then a.value
    else b
  }

  function Blocks(r: Record): nat {
    if r.observed.Some? then r.observed.value + 1 else 0
  }

  // Only a resolved action has been observed on chain.
  predicate Sound(r: Record) {
    ValidRecord(r) && (Unresolved(r) ==> r.observed.None?)
  }

  // Merging never goes back: not from resolved to unresolved, not from a known
  // hash to none, not from a later observation to an earlier one.
  lemma AdvancedNeverBack(a: Record, b: Record)
    requires Sound(a) && Sound(b)
    ensures var r := Advanced(Some(a), b);
            && (r == a || r == b) && (Unresolved(r) <==> Unresolved(a) && Unresolved(b))
            && (r.hash.Some? <==> a.hash.Some? || b.hash.Some?)
            && Blocks(r) == if Blocks(a) > Blocks(b) then Blocks(a) else Blocks(b)
  {
  }

  // ------------------------------------------------------------------ one operation

  datatype Local = Local(memory: map<int, Record>, dirty: set<int>)

  datatype Shared = Shared(guard: Option<Record>, reports: map<int, map<int, Record>>)

  // Which storage calls of an operation fail.
  datatype Faults = Faults(readReport: bool, readGuard: bool, writeGuard: bool, writeReport: bool, removeGuard: bool)

  function Find(records: map<int, Record>, id: int): Option<Record> {
    if id in records then Some(records[id]) else None
  }

  function Stored(shared: Shared, report: int): map<int, Record> {
    if report in shared.reports then shared.reports[report] else map[]
  }

  // One record of the merge: memory, then storage, then memory again if dirty.
  function MergedRecord(mine: Option<Record>, theirs: Option<Record>, dirty: bool): Option<Record> {
    match mine
    case None => theirs
    case Some(m) =>
      var merged := if theirs.Some? then Advanced(mine, theirs.value) else m;
      Some(if dirty then Advanced(Some(merged), m) else merged)
  }

  function Merged(local: Local, stored: map<int, Record>): map<int, Record> {
    map id | id in local.memory.Keys + stored.Keys ::
      MergedRecord(Find(local.memory, id), Find(stored, id), id in local.dirty).value
  }

  function Furthest(a: nat, b: nat): nat {
    if a > b then a else b
  }

  // Two versions that are equally far along.
  predicate Level(a: Record, b: Record) {
    Unresolved(a) == Unresolved(b) && a.hash.Some? == b.hash.Some? && Blocks(a) == Blocks(b)
  }

  // A merged record is as far along as the furthest version of it, and between
  // equals the unsaved version in memory beats the stored one.
  lemma MergeKeepsFurthest(mine: Record, theirs: Record, dirty: bool)
    requires Sound(mine) && Sound(theirs)
    ensures var r := MergedRecord(Some(mine), Some(theirs), dirty).value;
            && (r == mine || r == theirs) && (Unresolved(r) <==> Unresolved(mine) && Unresolved(theirs))
            && (r.hash.Some? <==> mine.hash.Some? || theirs.hash.Some?)
            && Blocks(r) == Furthest(Blocks(mine), Blocks(theirs))
            && (Level(mine, theirs) ==> r == if dirty then mine else theirs)
  {
    AdvancedNeverBack(mine, theirs);
    AdvancedNeverBack(Advanced(Some(mine), theirs), mine);
  }

  predicate Settled(r: Record) {
    r.state == Confirmed || r.state == Reverted
  }

  // Of two versions, `r` is the one that is further along, and `b` of equals.
  predicate FurtherOf(a: Record, b: Record, r: Record) {
    && (r == a || r == b) && (Settled(r) <==> Settled(a) || Settled(b))
    && (r.hash.Some? <==> a.hash.Some? || b.hash.Some?)
    && (a.observed.Some? && b.observed.Some? ==>
          r.observed == if a.observed.value > b.observed.value then a.observed else b.observed)
    && (a.observed.Some? != b.observed.Some? ==> r.observed.Some?)
    && (Settled(a) == Settled(b) && a.hash.Some? == b.hash.Some? && a.observed == b.observed ==> r == b)
  }

  lemma AdvancedIsFurther(a: Record, b: Record)
    requires Sound(a) && Sound(b)
    ensures FurtherOf(a, b, Advanced(Some(a), b))
  {
  }

  // All records of memory and storage, of two versions the further one, and of
  // equals the one in memory if that is not saved yet.
  ghost predicate Joined(local: Local, stored: map<int, Record>, merged: map<int, Record>) {
    && merged.Keys == local.memory.Keys + stored.Keys
    && forall id :: id in merged ==>
         if id !in stored then merged[id] == local.memory[id]
         else if id !in local.memory then merged[id] == stored[id]
         else if id in local.dirty then FurtherOf(stored[id], local.memory[id], merged[id])
         else FurtherOf(local.memory[id], stored[id], merged[id])
  }

  ghost predicate AllSound(records: map<int, Record>) {
    forall id :: id in records ==> records[id].id == id && Sound(records[id])
  }

  lemma MergedJoins(local: Local, stored: map<int, Record>)
    requires AllSound(local.memory) && AllSound(stored)
    ensures Joined(local, stored, Merged(local, stored)) && AllSound(Merged(local, stored))
  {
    forall id | id in local.memory && id in stored
      ensures var r := MergedRecord(Some(local.memory[id]), Some(stored[id]), id in local.dirty).value;
              if id in local.dirty then FurtherOf(stored[id], local.memory[id], r)
              else FurtherOf(local.memory[id], stored[id], r)
    {
      AdvancedIsFurther(local.memory[id], stored[id]);
    }
  }

  // What memory holds after reading the records of a report.
  ghost predicate ReadInto(local: Local, shared: Shared, report: int, f: Faults, memory: map<int, Record>) {
    if f.readReport then memory == local.memory
    else Joined(local, if report in shared.reports then shared.reports[report] else map[], memory)
  }

  // What an update of `r` leaves: the further record in memory in any case; the
  // guard, for an open record, unless that write fails; the report's records
  // unless a write failed; and no guard of its own for a settled record, unless
  // storage fails then.
  ghost predicate UpdateKept(local: Local, shared: Shared, report: int, r: Record, f: Faults,
                             after: Local, open: Shared, record: Record) {
    var saved := !f.writeReport && (Settled(record) || !f.writeGuard);
    && (exists previous :: UpdatedOver(local, shared, report, r, f, after.memory, record, previous))
    && after.dirty == (if saved then {} else local.dirty + {r.id})
    && open.reports == (if saved then shared.reports[report := after.memory] else shared.reports)
    && open.guard == if !Settled(record) then (if f.writeGuard then shared.guard else Some(record))
                     else if saved && shared.guard.Some? && shared.guard.value.id == r.id && !f.readGuard && !f.removeGuard
                     then None else shared.guard
  }

  ghost predicate UpdatedOver(local: Local, shared: Shared, report: int, r: Record, f: Faults,
                              memory: map<int, Record>, record: Record, previous: map<int, Record>) {
    && ReadInto(local, shared, report, f, previous) && memory == previous[r.id := record] && record.id == r.id
    && if r.id in previous then FurtherOf(previous[r.id], r, record) else record == r
  }

  lemma UpdateKeeps(local: Local, shared: Shared, report: int, r: Record, f: Faults)
    requires AllSound(local.memory) && AllSound(Stored(shared, report)) && Sound(r)
    ensures var saved := Updated(local, shared, report, r, f);
            UpdateKept(local, shared, report, r, f, saved.local, saved.shared, saved.record)
  {
    UpdateJoins(local, shared, report, r, f);
    UpdateWrites(local, shared, report, r, f);
  }

  lemma ReadJoins(local: Local, shared: Shared, report: int, f: Faults)
    requires AllSound(local.memory) && AllSound(Stored(shared, report))
    ensures var read := Records(local, shared, report, f); ReadInto(local, shared, report, f, read) && AllSound(read)
  {
    MergedJoins(local, Stored(shared, report));
  }

  lemma UpdateJoins(local: Local, shared: Shared, report: int, r: Record, f: Faults)
    requires AllSound(local.memory) && AllSound(Stored(shared, report)) && Sound(r)
    ensures var saved, previous := Updated(local, shared, report, r, f), Records(local, shared, report, f);
            UpdatedOver(local, shared, report, r, f, saved.local.memory, saved.record, previous)
  {
    var previous := Records(local, shared, report, f);
    ReadJoins(local, shared, report, f);
    if r.id in previous {
      AdvancedIsFurther(previous[r.id], r);
    }
  }

  lemma UpdateWrites(local: Local, shared: Shared, report: int, r: Record, f: Faults)
    requires Updated(local, shared, report, r, f).record.id == r.id
    ensures var u := Updated(local, shared, report, r, f);
            var saved := !f.writeReport && (Settled(u.record) || !f.writeGuard);
            && u.local.dirty == (if saved then {} else local.dirty + {r.id})
            && u.shared.reports == (if saved then shared.reports[report := u.local.memory] else shared.reports)
            && u.shared.guard ==
               if !Settled(u.record) then (if f.writeGuard then shared.guard else Some(u.record))
               else if saved && shared.guard.Some? && shared.guard.value.id == r.id && !f.readGuard && !f.removeGuard
               then None else shared.guard
  {
  }

  // What a rejection leaves: nothing changes unless the guard is the action's own
  // and comes down, and then its record goes too.
  ghost predicate CancelKept(local: Local, shared: Shared, report: int, r: Record, f: Faults, after: Local, open: Shared) {
    if f.readGuard || f.removeGuard || shared.guard.None? || shared.guard.value.id != r.id then
      after == local && open == shared
    else
      && after.dirty == local.dirty && open.guard == None
      && (exists memory :: ReadInto(local, shared, report, f, memory) && after.memory == memory - {r.id})
      && open.reports == if f.writeReport then shared.reports else shared.reports[report := after.memory]
  }

  lemma CancelKeeps(local: Local, shared: Shared, report: int, r: Record, f: Faults)
    requires AllSound(local.memory) && AllSound(Stored(shared, report))
    requires shared.guard.Some? ==> ValidRecord(shared.guard.value) && Unresolved(shared.guard.value)
    ensures var (after, open) := Cancelled(local, shared, report, r, f); CancelKept(local, shared, report, r, f, after, open)
  {
    MergedJoins(local, Stored(shared, report));
    assert ReadInto(local, shared, report, f, Records(local, shared.(guard := None), report, f));
  }

  // A guard is reported while it is unresolved, with the hash that memory knows;
  // one that cannot be read or is not valid disables signing.
  lemma UnresolvedMeans(local: Local, shared: Shared, f: Faults)
    ensures UnresolvedIn(local, shared, f).Err? <==>
              f.readGuard || (shared.guard.Some? && !ValidRecord(shared.guard.value))
    ensures UnresolvedIn(local, shared, f) == Ok(None) <==>
              !f.readGuard && (shared.guard.None? || (ValidRecord(shared.guard.value) && Settled(shared.guard.value)))
    ensures UnresolvedIn(local, shared, f).Ok? && UnresolvedIn(local, shared, f).value.Some? ==>
              var g, u := shared.guard.value, UnresolvedIn(local, shared, f).value.value;
              && u.id == g.id && (g.hash.Some? ==> u == g)
              && (g.id in local.memory && local.memory[g.id].hash.Some? ==> u.hash.Some?)
              && (g.hash.None? && u.hash.Some? ==>
                    g.id in local.memory && u.hash == local.memory[g.id].hash && u.state == Pending)
  {
  }

  function Records(local: Local, shared: Shared, report: int, f: Faults): map<int, Record> {
    if f.readReport then local.memory else Merged(local, Stored(shared, report))
  }

  // The unresolved action that the storage guards; an error disables signing.
  function UnresolvedIn(local: Local, shared: Shared, f: Faults): Result<Option<Record>, ()> {
    if f.readGuard then Err(())
    else
      match shared.guard
      case None => Ok(None)
      case Some(g) =>
        if !ValidRecord(g) then Err(())
        else
          var mine := Find(local.memory, g.id);
          if Unresolved(g) && g.hash.None? && mine.Some? && mine.value.hash.Some? then
            Ok(Some(g.(hash := mine.value.hash, state := Pending)))
          else Ok(if Unresolved(g) then Some(g) else None)
  }

  datatype Saved = Saved(local: Local, shared: Shared, record: Record)

  // What update keeps: first in memory, then the guard while unresolved, then
  // the report's records, and last the removal of the guard it resolves. The
  // first storage call that fails ends it.
  function Updated(local: Local, shared: Shared, report: int, r: Record, f: Faults): Saved {
    var previous := Records(local, shared, report, f);
    var record := Advanced(Find(previous, r.id), r);
    var memory := previous[record.id := record];
    var unsaved := Local(memory, local.dirty + {record.id});
    if Unresolved(record) && f.writeGuard then Saved(unsaved, shared, record)
    else
      var guarded := if Unresolved(record) then shared.(guard := Some(record)) else shared;
      if f.writeReport then Saved(unsaved, guarded, record)
      else
        var saved := guarded.(reports := guarded.reports[report := memory]);
        var cleared :=
          if !Unresolved(record) && !f.readGuard && saved.guard.Some? && saved.guard.value.id == record.id
             && !f.removeGuard
          then saved.(guard := None) else saved;
        Saved(Local(memory, {}), cleared, record)
  }

  // The intent is stored before anything is signed, or begin fails.
  function Begun(local: Local, shared: Shared, report: int, id: int, f: Faults, later: Faults): Option<Saved> {
    if UnresolvedIn(local, shared, f) != Ok(None) || f.writeGuard then None
    else
      var r := Record(id, report, None, Awaiting, None, None);
      Some(Updated(local, shared.(guard := Some(r)), report, r, later))
  }

  // Only the guard of the rejected action itself is dropped.
  function Cancelled(local: Local, shared: Shared, report: int, r: Record, f: Faults): (Local, Shared) {
    match UnresolvedIn(local, shared, f)
    case Err(_) => (local, shared)
    case Ok(None) => (local, shared)
    case Ok(Some(g)) =>
      if g.id != r.id || f.removeGuard then (local, shared)
      else
        var open := shared.(guard := None);
        var memory := Records(local, open, report, f) - {r.id};
        (Local(memory, local.dirty), if f.writeReport then open else open.(reports := open.reports[report := memory]))
  }
}
