// Guard logs, their order on the chain, and who is armed after replaying them.

module KeeperLogs {

  datatype Kind = Armed | Disarmed | Protected | Other

  datatype Log = Log(kind: Kind, user: string, block: int, index: int)

  // No capital is left, and nothing else changes.
  function Lower(s: string): (r: string)
    ensures |r| == |s|
    ensures forall i :: 0 <= i < |s| ==>
              && !('A' <= r[i] <= 'Z')
              && (r[i] == s[i] || ('A' <= s[i] <= 'Z' && r[i] as int - s[i] as int == 'a' as int - 'A' as int))
  {
    seq(|s|, i requires 0 <= i < |s| => if 'A' <= s[i] <= 'Z' then (s[i] as int + 32) as char else s[i])
  }

  function Borrower(l: Log): string {
    Lower(l.user)
  }

  // ------------------------------------------------------------------- sorting

  predicate Before(a: Log, b: Log) {
    a.block < b.block || (a.block == b.block && a.index < b.index)
  }

  function Insert(x: Log, s: seq<Log>): (r: seq<Log>)
    ensures multiset(r) == multiset(s) + multiset{x}
  {
    if s == [] || Before(x, s[0]) then [x] + s
    else
      assert s == [s[0]] + s[1..];
      [s[0]] + Insert(x, s[1..])
  }

  // A stable sort by block and log index.
  function SortLogs(logs: seq<Log>): (r: seq<Log>)
    ensures multiset(r) == multiset(logs)
  {
    if logs == [] then []
    else
      assert logs == logs[..|logs| - 1] + [logs[|logs| - 1]];
      Insert(logs[|logs| - 1], SortLogs(logs[..|logs| - 1]))
  }

  ghost predicate Sorted(s: seq<Log>) {
    forall i, j :: 0 <= i < j < |s| ==> !Before(s[j], s[i])
  }

  // A position on the chain belongs to one log.
  ghost predicate Positions(logs: multiset<Log>) {
    forall a, b :: a in logs && b in logs && a.block == b.block && a.index == b.index ==> a == b
  }

  lemma {:induction false} InsertSorted(x: Log, s: seq<Log>)
    requires Sorted(s)
    ensures Sorted(Insert(x, s))
  {
    if s == [] || Before(x, s[0]) {
    } else {
      InsertSorted(x, s[1..]);
      var rest := Insert(x, s[1..]);
      forall k | 0 <= k < |rest|
        ensures !Before(rest[k], s[0])
      {
        assert rest[k] in multiset(rest);
        assert rest[k] == x || rest[k] in s[1..];
      }
    }
  }

  lemma {:induction false} SortLogsSorted(logs: seq<Log>)
    ensures Sorted(SortLogs(logs))
  {
    if logs != [] {
      SortLogsSorted(logs[..|logs| - 1]);
      InsertSorted(logs[|logs| - 1], SortLogs(logs[..|logs| - 1]));
    }
  }

  lemma SameFirst(s: seq<Log>, t: seq<Log>)
    requires Sorted(s) && Sorted(t) && multiset(s) == multiset(t) && Positions(multiset(s)) && s != [] && t != []
    ensures s[0] == t[0]
  {
    assert s[0] in multiset(s) && t[0] in multiset(t);
    var i :| 0 <= i < |t| && t[i] == s[0];
    var j :| 0 <= j < |s| && s[j] == t[0];
    assert !Before(s[0], t[0]) && !Before(t[0], s[0]);
  }

  lemma TailBag(s: seq<Log>)
    requires s != []
    ensures multiset(s[1..]) == multiset(s) - multiset{s[0]}
    ensures Positions(multiset(s)) ==> Positions(multiset(s[1..]))
    ensures Sorted(s) ==> Sorted(s[1..])
  {
    assert s == [s[0]] + s[1..];
    assert forall l :: l in multiset(s[1..]) ==> l in multiset(s);
  }

  lemma Rejoined(s: seq<Log>, t: seq<Log>)
    requires s != [] && t != [] && s[0] == t[0] && s[1..] == t[1..]
    ensures s == t
  {
    assert s == [s[0]] + s[1..] && t == [t[0]] + t[1..];
  }

  // There is one sorted order of the same logs.
  lemma {:induction false} SortedUnique(s: seq<Log>, t: seq<Log>)
    requires Sorted(s) && Sorted(t) && multiset(s) == multiset(t) && Positions(multiset(s))
    ensures s == t
  {
    assert |multiset(s)| == |s| && |multiset(t)| == |t|;
    if s != [] {
      SameFirst(s, t);
      TailBag(s);
      TailBag(t);
      SortedUnique(s[1..], t[1..]);
      Rejoined(s, t);
    }
  }

  lemma SortedConcat(s: seq<Log>, t: seq<Log>, block: int)
    requires Sorted(s) && Sorted(t)
    requires forall l :: l in multiset(s) ==> l.block <= block
    requires forall l :: l in multiset(t) ==> l.block > block
    ensures Sorted(s + t)
  {
    assert forall i :: 0 <= i < |s| ==> s[i] in multiset(s);
    assert forall i :: 0 <= i < |t| ==> t[i] in multiset(t);
  }

  // Logs split at a block sort piece by piece, whatever order they come in.
  lemma SortSplit(all: seq<Log>, early: seq<Log>, late: seq<Log>, block: int)
    requires multiset(all) == multiset(early) + multiset(late) && Positions(multiset(all))
    requires forall l :: l in multiset(early) ==> l.block <= block
    requires forall l :: l in multiset(late) ==> l.block > block
    ensures SortLogs(all) == SortLogs(early) + SortLogs(late)
  {
    SortLogsSorted(all);
    SortLogsSorted(early);
    SortLogsSorted(late);
    SortedConcat(SortLogs(early), SortLogs(late), block);
    SortedUnique(SortLogs(all), SortLogs(early) + SortLogs(late));
  }

  // The order inside a batch does not matter.
  lemma SortPermuted(logs: seq<Log>, shuffled: seq<Log>)
    requires multiset(logs) == multiset(shuffled) && Positions(multiset(logs))
    ensures SortLogs(logs) == SortLogs(shuffled)
  {
    SortLogsSorted(logs);
    SortLogsSorted(shuffled);
    SortedUnique(SortLogs(logs), SortLogs(shuffled));
  }

  // ------------------------------------------------------------------- replaying

  datatype View = View(armed: map<string, (int, int)>, terminal: set<string>)

  const NOTHING := View(map[], {})

  function Applied(v: View, l: Log): View {
    var u := Borrower(l);
    View(if l.kind.Armed? then v.armed[u := (l.block, l.index)] else v.armed - {u}, v.terminal - {u})
  }

  function AppliedAll(v: View, logs: seq<Log>): View {
    if logs == [] then v else Applied(AppliedAll(v, logs[..|logs| - 1]), logs[|logs| - 1])
  }

  lemma {:induction false} AppliedConcat(v: View, a: seq<Log>, b: seq<Log>)
    ensures AppliedAll(v, a + b) == AppliedAll(AppliedAll(v, a), b)
  {
    if b == [] {
      assert a + b == a;
    } else {
      assert (a + b)[..|a + b| - 1] == a + b[..|b| - 1];
      AppliedConcat(v, a, b[..|b| - 1]);
    }
  }

  // Who is armed, and since which log, does not depend on terminal marks.
  lemma {:induction false} ArmedAlike(v: View, w: View, logs: seq<Log>)
    requires v.armed == w.armed
    ensures AppliedAll(v, logs).armed == AppliedAll(w, logs).armed
  {
    if logs != [] {
      ArmedAlike(v, w, logs[..|logs| - 1]);
    }
  }

  // The borrowers armed after a full replay, each with the position of the log
  // that armed it.
  function Replayed(logs: seq<Log>): map<string, (int, int)> {
    AppliedAll(NOTHING, SortLogs(logs)).armed
  }

  function ArmedBy(logs: seq<Log>): set<string> {
    Replayed(logs).Keys
  }

  method ArmedSet(logs: seq<Log>) returns (out: set<string>)
    ensures out == ArmedBy(logs)
  {
    var sorted := SortLogs(logs);
    out := {};
    for i := 0 to |sorted|
      invariant out == AppliedAll(NOTHING, sorted[..i]).armed.Keys
    {
      assert sorted[..i + 1][..i] == sorted[..i];
      var u := Borrower(sorted[i]);
      if sorted[i].kind.Armed? {
        out := out + {u};
      } else {
        out := out - {u};
      }
    }
    assert sorted[..|sorted|] == sorted;
  }

  // The log l is the last one of its borrower, by block and by index within one.
  ghost predicate Latest(logs: seq<Log>, l: Log) {
    l in logs && forall m :: m in logs && Borrower(m) == Borrower(l) ==>
      m.block < l.block || (m.block == l.block && m.index <= l.index)
  }

  lemma {:induction false} LastInOrder(s: seq<Log>, u: string)
    ensures u in AppliedAll(NOTHING, s).armed.Keys <==>
              exists i :: 0 <= i < |s| && s[i].kind.Armed? && LastOf(s, i, u)
    ensures forall i :: 0 <= i < |s| && s[i].kind.Armed? && LastOf(s, i, u) ==>
              u in AppliedAll(NOTHING, s).armed && AppliedAll(NOTHING, s).armed[u] == (s[i].block, s[i].index)
  {
    if s != [] {
      var n := |s| - 1;
      var init := s[..n];
      LastInOrder(init, u);
      if Borrower(s[n]) == u {
        assert LastOf(s, n, u);
      } else {
        forall i | 0 <= i < n
          ensures LastOf(s, i, u) <==> LastOf(init, i, u)
        {
          if LastOf(init, i, u) {
            assert forall j :: i < j < n ==> s[j] == init[j];
          }
          if LastOf(s, i, u) {
            assert forall j :: i < j < n ==> init[j] == s[j];
          }
        }
      }
    }
  }

  ghost predicate LastOf(s: seq<Log>, i: int, u: string)
    requires 0 <= i < |s|
  {
    Borrower(s[i]) == u && forall j :: i < j < |s| ==> Borrower(s[j]) != u
  }

  // A borrower is armed exactly when its latest log on the chain armed it, and
  // then since that log.
  lemma ArmedMeansLatest(logs: seq<Log>, u: string)
    requires Positions(multiset(logs))
    ensures u in ArmedBy(logs) <==> exists l :: Latest(logs, l) && Borrower(l) == u && l.kind.Armed?
    ensures forall l :: Latest(logs, l) && Borrower(l) == u && l.kind.Armed? ==>
              u in Replayed(logs) && Replayed(logs)[u] == (l.block, l.index)
  {
    var s := SortLogs(logs);
    SortLogsSorted(logs);
    LastInOrder(s, u);
    if u in ArmedBy(logs) {
      var i :| 0 <= i < |s| && s[i].kind.Armed? && LastOf(s, i, u);
      LastIsLatest(logs, s, i, u);
    }
    forall l | Latest(logs, l) && Borrower(l) == u && l.kind.Armed?
      ensures u in Replayed(logs) && Replayed(logs)[u] == (l.block, l.index)
    {
      LatestIsLast(logs, s, l);
    }
  }

  lemma LastIsLatest(logs: seq<Log>, s: seq<Log>, i: int, u: string)
    requires multiset(s) == multiset(logs) && Sorted(s) && 0 <= i < |s| && LastOf(s, i, u)
    ensures Latest(logs, s[i])
  {
    assert s[i] in multiset(s) && s[i] in multiset(logs);
    forall m | m in logs && Borrower(m) == u
      ensures m.block < s[i].block || (m.block == s[i].block && m.index <= s[i].index)
    {
      assert m in multiset(logs);
      var j :| 0 <= j < |s| && s[j] == m;
      assert j <= i;
    }
  }

  lemma LatestIsLast(logs: seq<Log>, s: seq<Log>, l: Log)
    requires multiset(s) == multiset(logs) && Sorted(s) && Positions(multiset(s)) && Latest(logs, l)
    ensures exists i :: 0 <= i < |s| && s[i] == l && LastOf(s, i, Borrower(l))
  {
    assert l in multiset(s);
    var k :| 0 <= k < |s| && s[k] == l;
    var i := LastIndex(s, k);
    assert s[i] in multiset(s) && s[i] in multiset(logs);
    assert s[i] in logs;
    if k < i {
      assert !Before(s[i], s[k]);
    }
  }

  // The last log of the same borrower, from k on.
  lemma {:induction false} LastIndex(s: seq<Log>, k: int) returns (i: int)
    requires 0 <= k < |s|
    ensures k <= i < |s| && LastOf(s, i, Borrower(s[k]))
    decreases |s| - k
  {
    i := k;
    if !LastOf(s, k, Borrower(s[k])) {
      var j :| k < j < |s| && Borrower(s[j]) == Borrower(s[k]);
      i := LastIndex(s, j);
    }
  }
}
