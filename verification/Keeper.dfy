// The keeper's incremental index of armed policies, fed by chunked scanning.

module Keeper {
  import opened KeeperLogs

  // -------------------------------------------------------- what a tracker went through

  datatype Happening = Seen(log: Log) | Marked(borrower: string)

  function MarkedIn(v: View, u: string): View {
    if u in v.armed then v.(terminal := v.terminal + {u}) else v
  }

  function Tracked(history: seq<Happening>): View {
    if history == [] then NOTHING
    else
      var before := Tracked(history[..|history| - 1]);
      match history[|history| - 1]
      case Seen(l) => Applied(before, l)
      case Marked(b) => MarkedIn(before, Lower(b))
  }

  function Sightings(logs: seq<Log>): (h: seq<Happening>)
    ensures |h| == |logs|
  {
    seq(|logs|, i requires 0 <= i < |logs| => Seen(logs[i]))
  }

  lemma TrackedMark(history: seq<Happening>, b: string)
    ensures Tracked(history + [Marked(b)]) == MarkedIn(Tracked(history), Lower(b))
  {
    assert (history + [Marked(b)])[..|history|] == history;
  }

  lemma TrackedSeen(history: seq<Happening>, l: Log)
    ensures Tracked(history + [Seen(l)]) == Applied(Tracked(history), l)
  {
    assert (history + [Seen(l)])[..|history|] == history;
  }

  lemma AppliedNext(v: View, logs: seq<Log>, i: nat)
    requires i < |logs|
    ensures AppliedAll(v, logs[..i + 1]) == Applied(AppliedAll(v, logs[..i]), logs[i])
    ensures Sightings(logs[..i + 1]) == Sightings(logs[..i]) + [Seen(logs[i])]
  {
    assert logs[..i + 1][..i] == logs[..i];
  }

  // A terminal reading came after the latest event of the borrower.
  ghost predicate MarkedSince(history: seq<Happening>, u: string) {
    exists i :: 0 <= i < |history| && MarkStands(history, i, u)
  }

  ghost predicate MarkStands(history: seq<Happening>, i: int, u: string)
    requires 0 <= i < |history|
  {
    && history[i].Marked? && Lower(history[i].borrower) == u
    && forall j :: i < j < |history| ==> history[j].Seen? ==> Borrower(history[j].log) != u
  }

  lemma MarkStandsLast(history: seq<Happening>, i: int, u: string)
    requires 0 <= i < |history| - 1
    ensures MarkStands(history, i, u) <==>
              && MarkStands(history[..|history| - 1], i, u)
              && (history[|history| - 1].Seen? ==> Borrower(history[|history| - 1].log) != u)
  {
    var init := history[..|history| - 1];
    if MarkStands(init, i, u) {
      assert forall j :: i < j < |init| ==> history[j] == init[j];
    }
    if MarkStands(history, i, u) {
      assert forall j :: i < j < |init| ==> init[j] == history[j];
    }
  }

  lemma MarkedSinceLast(history: seq<Happening>, u: string)
    requires history != []
    ensures var last := history[|history| - 1];
            MarkedSince(history, u) <==>
              if last.Marked? then Lower(last.borrower) == u || MarkedSince(history[..|history| - 1], u)
              else Borrower(last.log) != u && MarkedSince(history[..|history| - 1], u)
  {
    var n := |history| - 1;
    var init, last := history[..n], history[n];
    if i :| 0 <= i < |history| && MarkStands(history, i, u) {
      if i < n {
        MarkStandsLast(history, i, u);
      }
    }
    if last.Marked? && Lower(last.borrower) == u {
      assert MarkStands(history, n, u);
    } else if i :| 0 <= i < n && MarkStands(init, i, u) {
      MarkStandsLast(history, i, u);
    }
  }

  // Terminal are exactly the armed borrowers read as terminal since their
  // latest event, so every terminal borrower is armed.
  lemma {:induction false} TerminalMeaning(history: seq<Happening>, u: string)
    ensures u in Tracked(history).terminal <==> u in Tracked(history).armed && MarkedSince(history, u)
  {
    if history != [] {
      TerminalMeaning(history[..|history| - 1], u);
      MarkedSinceLast(history, u);
    }
  }

  lemma LowerTwice(s: string)
    ensures Lower(Lower(s)) == Lower(s)
  {
  }

  lemma {:induction false} ArmedAreLower(history: seq<Happening>, u: string)
    requires u in Tracked(history).armed
    ensures Lower(u) == u
  {
    var before, last := history[..|history| - 1], history[|history| - 1];
    if u in Tracked(before).armed {
      ArmedAreLower(before, u);
    } else {
      LowerTwice(last.log.user);
    }
  }

  // ------------------------------------------------------------------- PolicyTracker

  class PolicyTracker {
    var armed: map<string, (int, int)>
    var terminal: set<string>
    ghost var history: seq<Happening>

    ghost predicate Valid()
      reads this
    {
      View(armed, terminal) == Tracked(history)
    }

    constructor ()
      ensures Valid() && history == []
    {
      armed, terminal, history := map[], {}, [];
    }

    method Apply(logs: seq<Log>)
      requires Valid()
      modifies this
      ensures Valid() && history == old(history) + Sightings(SortLogs(logs))
      ensures View(armed, terminal) == AppliedAll(old(View(armed, terminal)), SortLogs(logs))
    {
      var sorted := SortLogs(logs);
      ghost var before := View(armed, terminal);
      for i := 0 to |sorted|
        invariant Valid() && history == old(history) + Sightings(sorted[..i])
        invariant View(armed, terminal) == AppliedAll(before, sorted[..i])
      {
        AppliedNext(before, sorted, i);
        See(sorted[i]);
      }
      assert sorted[..|sorted|] == sorted;
    }

    method See(l: Log)
      requires Valid()
      modifies this
      ensures Valid() && history == old(history) + [Seen(l)]
      ensures View(armed, terminal) == Applied(old(View(armed, terminal)), l)
    {
      var u := Borrower(l);
      TrackedSeen(history, l);
      terminal := terminal - {u};
      if l.kind.Armed? {
        armed := armed[u := (l.block, l.index)];
      } else {
        armed := armed - {u};
      }
      history := history + [Seen(l)];
    }

    method MarkTerminal(borrower: string)
      requires Valid()
      modifies this`terminal, this`history
      ensures Valid() && history == old(history) + [Marked(borrower)]
      ensures terminal == if Lower(borrower) in armed then old(terminal) + {Lower(borrower)} else old(terminal)
    {
      TrackedMark(history, borrower);
      if Lower(borrower) in armed {
        terminal := terminal + {Lower(borrower)};
      }
      history := history + [Marked(borrower)];
    }

    // Armed, and not read as terminal since the latest event; each once.
    method Pollable() returns (borrowers: seq<string>)
      requires Valid()
      ensures forall u :: u in borrowers <==> u in armed && u !in terminal
      ensures forall u :: u in borrowers <==> u in armed && !MarkedSince(history, u)
      ensures forall i, j :: 0 <= i < j < |borrowers| ==> borrowers[i] != borrowers[j]
    {
      borrowers := [];
      var keys := armed.Keys - terminal;
      while keys != {}
        invariant forall u :: u in armed && u !in terminal <==> u in borrowers || u in keys
        invariant forall u :: u in borrowers ==> u !in keys
        invariant forall i, j :: 0 <= i < j < |borrowers| ==> borrowers[i] != borrowers[j]
        decreases |keys|
      {
        var u :| u in keys;
        assert u !in borrowers;
        borrowers := borrowers + [u];
        keys := keys - {u};
      }
      forall u: string
        ensures u in terminal <==> u in armed && MarkedSince(history, u)
      {
        TerminalMeaning(history, u);
      }
    }
  }

  // -------------------------------------------------------------------- pollStatuses

  datatype StatusRead = StatusRead(borrower: string, status: nat, icr: int)

  // These never become Ready without a new policy.
  predicate IsTerminal(status: nat) {
    1 <= status <= 3
  }

  // Every reading is what the guard answered about the borrower in its place.
  ghost predicate AsRead(taken: seq<StatusRead>, borrowers: seq<string>, answers: map<string, (nat, int)>) {
    |taken| <= |borrowers| &&
    forall i :: 0 <= i < |taken| ==>
      && taken[i].borrower == borrowers[i] && borrowers[i] in answers
      && answers[borrowers[i]] == (taken[i].status, taken[i].icr)
  }

  // Read as NoPolicy, Expired or StaleNonce, in the guard's numbering.
  ghost predicate ReadTerminal(taken: seq<StatusRead>, u: string) {
    exists i :: 0 <= i < |taken| && taken[i].borrower == u && taken[i].status in {1, 2, 3}
  }

  // Reads the pollable borrowers in turn and marks those read as terminal; a
  // read without answer fails and stops the poll with the marks made so far.
  method PollStatuses(tracker: PolicyTracker, answers: map<string, (nat, int)>)
    returns (ok: bool, taken: seq<StatusRead>, borrowers: seq<string>)
    requires tracker.Valid()
    modifies tracker`terminal, tracker`history
    ensures tracker.Valid() && AsRead(taken, borrowers, answers)
    ensures forall u :: u in borrowers <==> u in tracker.armed && u !in old(tracker.terminal)
    ensures forall i, j :: 0 <= i < j < |borrowers| ==> borrowers[i] != borrowers[j]
    ensures forall u :: u in tracker.terminal <==> u in old(tracker.terminal) || ReadTerminal(taken, u)
    ensures ok <==> |taken| == |borrowers|
    ensures !ok ==> borrowers[|taken|] !in answers
  {
    borrowers := tracker.Pollable();
    taken := [];
    while |taken| < |borrowers|
      invariant tracker.Valid() && AsRead(taken, borrowers, answers)
      invariant forall u :: u in tracker.terminal <==> u in old(tracker.terminal) || ReadTerminal(taken, u)
    {
      var b := borrowers[|taken|];
      if b !in answers {
        return false, taken, borrowers;
      }
      var r := StatusRead(b, answers[b].0, answers[b].1);
      ArmedAreLower(tracker.history, b);
      if IsTerminal(r.status) {
        tracker.MarkTerminal(b);
      }
      ReadMore(taken, r);
      taken := taken + [r];
    }
    ok := true;
  }

  lemma ReadMore(taken: seq<StatusRead>, r: StatusRead)
    ensures forall u :: ReadTerminal(taken + [r], u) <==> ReadTerminal(taken, u) || (u == r.borrower && r.status in {1, 2, 3})
  {
    var more := taken + [r];
    forall u: string
      ensures ReadTerminal(more, u) <==> ReadTerminal(taken, u) || (u == r.borrower && r.status in {1, 2, 3})
    {
      if i :| 0 <= i < |taken| && taken[i].borrower == u && taken[i].status in {1, 2, 3} {
        assert more[i] == taken[i];
      }
      assert more[|taken|] == r;
    }
  }

  // ------------------------------------------------------------------------- syncLogs

  const LOG_CHUNK: int := 10_000

  // The events that the scan passes on.
  predicate Arms(l: Log) {
    !l.kind.Other?
  }

  function OnlyArms(logs: seq<Log>): seq<Log> {
    if logs == [] then []
    else
      var rest := OnlyArms(logs[..|logs| - 1]);
      if Arms(logs[|logs| - 1]) then rest + [logs[|logs| - 1]] else rest
  }

  // What arms, disarms or uses up a policy.
  predicate OfPolicy(l: Log) {
    l.kind == Kind.Armed || l.kind == Kind.Disarmed || l.kind == Kind.Protected
  }

  // The policy logs in a range of blocks.
  function Within(chain: seq<Log>, from: int, to: int): seq<Log> {
    if chain == [] then []
    else
      var rest, l := Within(chain[..|chain| - 1], from, to), chain[|chain| - 1];
      if OfPolicy(l) && from <= l.block <= to then rest + [l] else rest
  }

  // A node answers with every armed, disarmed and protected log of the range and
  // with none outside it, in some order, among logs of other kinds.
  ghost predicate Reply(chain: seq<Log>, from: int, to: int, logs: seq<Log>) {
    forall l: Log :: l.kind == Kind.Armed || l.kind == Kind.Disarmed || l.kind == Kind.Protected ==>
      multiset(logs)[l] == if from <= l.block <= to then multiset(chain)[l] else 0
  }

  ghost predicate Honest(chain: seq<Log>, answers: map<(int, int), seq<Log>>) {
    forall range :: range in answers ==> Reply(chain, range.0, range.1, answers[range])
  }

  lemma {:induction false} OnlyArmsCounts(logs: seq<Log>, l: Log)
    ensures multiset(OnlyArms(logs))[l] ==
            if l.kind == Kind.Armed || l.kind == Kind.Disarmed || l.kind == Kind.Protected then multiset(logs)[l] else 0
  {
    if logs != [] {
      OnlyArmsCounts(logs[..|logs| - 1], l);
      assert logs == logs[..|logs| - 1] + [logs[|logs| - 1]];
    }
  }

  lemma {:induction false} WithinCounts(chain: seq<Log>, from: int, to: int, l: Log)
    ensures multiset(Within(chain, from, to))[l] ==
            if OfPolicy(l) && from <= l.block <= to then multiset(chain)[l] else 0
  {
    if chain != [] {
      WithinCounts(chain[..|chain| - 1], from, to, l);
      assert chain == chain[..|chain| - 1] + [chain[|chain| - 1]];
    }
  }

  // What is passed on of a node's answer are the policy logs of the range.
  lemma ReplyPassesOn(chain: seq<Log>, from: int, to: int, logs: seq<Log>)
    requires Reply(chain, from, to, logs)
    ensures multiset(OnlyArms(logs)) == multiset(Within(chain, from, to))
  {
    forall l: Log
      ensures multiset(OnlyArms(logs))[l] == multiset(Within(chain, from, to))[l]
    {
      OnlyArmsCounts(logs, l);
      WithinCounts(chain, from, to, l);
    }
  }

  // The log l armed its borrower in the range, and up to the end of it no later
  // log armed, disarmed or protected that borrower.
  ghost predicate Stands(chain: seq<Log>, from: int, to: int, l: Log) {
    && l in chain && l.kind == Kind.Armed && from <= l.block <= to
    && forall m :: m in chain && m.block <= to && Borrower(m) == Borrower(l)
                   && (m.kind == Kind.Armed || m.kind == Kind.Disarmed || m.kind == Kind.Protected) ==>
         m.block < l.block || (m.block == l.block && m.index <= l.index)
  }

  lemma LatestStands(chain: seq<Log>, from: int, to: int, l: Log)
    ensures Stands(chain, from, to, l) <==> Latest(Within(chain, from, to), l) && l.kind.Armed?
  {
    var logs := Within(chain, from, to);
    forall m: Log
      ensures m in logs <==> m in chain && OfPolicy(m) && from <= m.block <= to
    {
      WithinCounts(chain, from, to, m);
      assert m in logs <==> m in multiset(logs);
      assert m in chain <==> m in multiset(chain);
    }
  }

  // The index up to a block: exactly the borrowers of the logs that stand, each
  // at the position of its log.
  ghost predicate Indexed(chain: seq<Log>, from: int, to: int, armed: map<string, (int, int)>) {
    && (forall u :: u in armed <==> exists l :: Stands(chain, from, to, l) && Borrower(l) == u)
    && (forall l :: Stands(chain, from, to, l) ==>
          Borrower(l) in armed && armed[Borrower(l)] == (l.block, l.index))
  }

  lemma ReplayedIndexes(chain: seq<Log>, from: int, to: int)
    requires Positions(multiset(chain))
    ensures Indexed(chain, from, to, Replayed(Within(chain, from, to)))
  {
    var logs := Within(chain, from, to);
    WithinIsPart(chain, from, to);
    PositionsOfPart(chain, logs);
    forall l: Log
      ensures Stands(chain, from, to, l) <==> Latest(logs, l) && l.kind.Armed?
    {
      LatestStands(chain, from, to, l);
    }
    forall u: string
      ensures u in Replayed(logs) <==> exists l :: Stands(chain, from, to, l) && Borrower(l) == u
      ensures forall l :: Stands(chain, from, to, l) && Borrower(l) == u ==>
                u in Replayed(logs) && Replayed(logs)[u] == (l.block, l.index)
    {
      ArmedMeansLatest(logs, u);
    }
  }

  lemma HonestAt(chain: seq<Log>, answers: map<(int, int), seq<Log>>, from: int, to: int)
    requires Honest(chain, answers) && (from, to) in answers
    ensures Reply(chain, from, to, answers[(from, to)])
  {
  }

  function ChunkEnd(from: int, head: int): (to: int)
    requires from <= head
    ensures from <= to <= head && to < from + LOG_CHUNK && (to < head ==> to == from + LOG_CHUNK - 1)
  {
    if from + LOG_CHUNK - 1 < head then from + LOG_CHUNK - 1 else head
  }

  // Consecutive ranges without gap or overlap, none longer than a chunk.
  ghost predicate Tiles(ranges: seq<(int, int)>, from: int, to: int) {
    if ranges == [] then from == to + 1
    else
      var last := ranges[|ranges| - 1];
      last.1 == to && last.0 <= to < last.0 + 10_000 && Tiles(ranges[..|ranges| - 1], from, last.0 - 1)
  }

  lemma TilesMore(ranges: seq<(int, int)>, from: int, next: int, to: int)
    requires Tiles(ranges, from, next - 1) && next <= to < next + LOG_CHUNK
    ensures Tiles(ranges + [(next, to)], from, to)
  {
    assert (ranges + [(next, to)])[..|ranges|] == ranges;
  }

  lemma {:induction false} WithinSplit(chain: seq<Log>, from: int, mid: int, to: int)
    requires from - 1 <= mid <= to
    ensures multiset(Within(chain, from, to)) == multiset(Within(chain, from, mid)) + multiset(Within(chain, mid + 1, to))
  {
    if chain != [] {
      WithinSplit(chain[..|chain| - 1], from, mid, to);
    }
  }

  // Applying the logs of the next range keeps the index equal to a full replay.
  lemma NextRange(chain: seq<Log>, v: View, from: int, mid: int, to: int, batch: seq<Log>)
    requires Positions(multiset(chain)) && from - 1 <= mid <= to
    requires multiset(batch) == multiset(Within(chain, mid + 1, to))
    requires v.armed == Replayed(Within(chain, from, mid))
    ensures AppliedAll(v, SortLogs(batch)).armed == Replayed(Within(chain, from, to))
  {
    var all, early, late := Within(chain, from, to), Within(chain, from, mid), Within(chain, mid + 1, to);
    WithinSplit(chain, from, mid, to);
    WithinIsPart(chain, from, to);
    WithinIsPart(chain, from, mid);
    WithinIsPart(chain, mid + 1, to);
    PositionsOfPart(chain, all);
    PositionsOfPart(chain, late);
    SortSplit(all, early, late, mid);
    SortPermuted(late, batch);
    AppliedConcat(NOTHING, SortLogs(early), SortLogs(late));
    ArmedAlike(v, AppliedAll(NOTHING, SortLogs(early)), SortLogs(late));
  }

  lemma {:induction false} WithinIsPart(chain: seq<Log>, from: int, to: int)
    ensures forall l :: l in multiset(Within(chain, from, to)) ==> l in multiset(chain) && from <= l.block <= to
  {
    if chain != [] {
      WithinIsPart(chain[..|chain| - 1], from, to);
      assert chain == chain[..|chain| - 1] + [chain[|chain| - 1]];
    }
  }

  lemma PositionsOfPart(chain: seq<Log>, part: seq<Log>)
    requires Positions(multiset(chain)) && forall l :: l in multiset(part) ==> l in multiset(chain)
    ensures Positions(multiset(part))
  {
  }

  lemma {:induction false} WithinNone(chain: seq<Log>, from: int)
    ensures Within(chain, from, from - 1) == []
  {
    if chain != [] {
      WithinNone(chain[..|chain| - 1], from);
    }
  }

  // The arming logs among a node's answer.
  method ArmingLogs(logs: seq<Log>) returns (batch: seq<Log>)
    ensures batch == OnlyArms(logs)
  {
    batch := [];
    for i := 0 to |logs|
      invariant batch == OnlyArms(logs[..i])
    {
      assert logs[..i + 1][..i] == logs[..i];
      if Arms(logs[i]) {
        batch := batch + [logs[i]];
      }
    }
    assert logs[..|logs|] == logs;
  }

  class LogIndex {
    const first: int
    const tracker: PolicyTracker
    var scanned: int

    // Up to the cursor, the index is what replaying the whole history gives.
    ghost predicate Synced(chain: seq<Log>)
      reads this, tracker
    {
      tracker.Valid() && first - 1 <= scanned && tracker.armed == Replayed(Within(chain, first, scanned))
    }

    constructor (from: int, chain: seq<Log>)
      ensures Synced(chain) && scanned == from - 1 && first == from && fresh(tracker)
    {
      first, scanned := from, from - 1;
      tracker := new PolicyTracker();
      new;
      WithinNone(chain, from);
    }

    // And that is exactly who the chain says is armed at the cursor.
    ghost predicate Current(chain: seq<Log>)
      reads this, tracker
    {
      Indexed(chain, first, scanned, tracker.armed)
    }

    // One answered chunk: its logs are applied, then the cursor moves.
    method ApplyChunk(chain: seq<Log>, to: int, logs: seq<Log>)
      requires Synced(chain) && Positions(multiset(chain)) && scanned <= to && Reply(chain, scanned + 1, to, logs)
      modifies this`scanned, tracker
      ensures Synced(chain) && scanned == to && Current(chain)
    {
      ReplyPassesOn(chain, scanned + 1, to, logs);
      var batch := ArmingLogs(logs);
      NextRange(chain, View(tracker.armed, tracker.terminal), first, scanned, to, batch);
      tracker.Apply(batch);
      scanned := to;
      ReplayedIndexes(chain, first, to);
    }

    // One request; without an answer nothing changes.
    method FetchChunk(chain: seq<Log>, from: int, to: int, answers: map<(int, int), seq<Log>>) returns (ok: bool)
      requires Synced(chain) && Positions(multiset(chain)) && Honest(chain, answers) && from == scanned + 1 <= to
      modifies this`scanned, tracker
      ensures Synced(chain) && scanned == if ok then to else old(scanned)
    {
      ok := (from, to) in answers;
      if ok {
        HonestAt(chain, answers, from, to);
        ApplyChunk(chain, to, answers[(from, to)]);
      }
    }

    // Scans chunk by chunk to the head; a failing fetch leaves the index and
    // the cursor at the last chunk that was applied.
    method SyncLogs(chain: seq<Log>, head: int, answers: map<(int, int), seq<Log>>)
      returns (ok: bool, done: seq<(int, int)>)
      requires Synced(chain) && Positions(multiset(chain))
      requires Honest(chain, answers)
      modifies this`scanned, tracker
      ensures Synced(chain) && Current(chain) && Tiles(done, old(scanned) + 1, scanned)
      ensures forall i :: 0 <= i < |done| ==> done[i].1 == head || done[i].1 == done[i].0 + 9_999
      ensures ok ==> scanned == if old(scanned) < head then head else old(scanned)
      ensures !ok ==> old(scanned) <= scanned < head
    {
      done := [];
      while scanned < head
        invariant Synced(chain) && Tiles(done, old(scanned) + 1, scanned)
        invariant old(scanned) <= scanned && (scanned == old(scanned) || scanned <= head)
        invariant forall i :: 0 <= i < |done| ==> done[i].1 == head || done[i].1 == done[i].0 + 9_999
        decreases head - scanned
      {
        var from := scanned + 1;
        var to := ChunkEnd(from, head);
        ok := FetchChunk(chain, from, to, answers);
        if !ok {
          ReplayedIndexes(chain, first, scanned);
          return false, done;
        }
        TilesMore(done, old(scanned) + 1, from, to);
        done := done + [(from, to)];
      }
      ReplayedIndexes(chain, first, scanned);
      ok := true;
    }
  }
}
