// Runs in which the stored guard is cleared although a settlement was submitted
// and nothing is paid for: one for every way of clearing it that rests on less
// than a report, an expired or a paid quote.

module BrowserGap {
  import opened Wrappers
  import opened LedgerRows
  import opened LedgerInvariant
  import opened BrowserFlow
  import S = SampleRun
  import B = BrowserSafety
  import P = Protocol

  lemma Next(j: Joint, e: Event, next: Joint)
    requires Reachable(j) && Step(j, e) == Some(next)
    ensures Reachable(next)
  {
    var q, events :| Run(Opened(q), events) == Some(j);
    assert (events + [e])[..|events|] == events;
    assert Run(Opened(q), events + [e]) == Some(next);
  }

  lemma NextStored(j: Joint, e: Event, next: Joint)
    requires ReachableStored(j) && Stores(e) && Step(j, e) == Some(next)
    ensures ReachableStored(next)
  {
    var q, events :| (forall f :: f in events ==> Stores(f)) && Run(Opened(q), events) == Some(j);
    assert (events + [e])[..|events|] == events;
    assert Run(Opened(q), events + [e]) == Some(next);
  }

  lemma StoredIsReachable(j: Joint)
    requires ReachableStored(j)
    ensures Reachable(j)
  {
    var q, events :| (forall f :: f in events ==> Stores(f)) && Run(Opened(q), events) == Some(j);
    assert Run(Opened(q), events) == Some(j);
  }

  lemma ServesStored(w: P.World, v: P.World, tab: Browser)
    requires ReachableStored(Joint(w, tab)) && S.Reaches(w, v)
    ensures ReachableStored(Joint(v, tab))
  {
    var actions :| v == P.Run(w, actions);
    NextStored(Joint(w, tab), Server(actions), Joint(v, tab));
  }

  lemma Serves(w: P.World, v: P.World, tab: Browser)
    requires Reachable(Joint(w, tab)) && S.Reaches(w, v)
    ensures Reachable(Joint(v, tab))
  {
    var actions :| v == P.Run(w, actions);
    Next(Joint(w, tab), Server(actions), Joint(v, tab));
  }

  const RESTING := Flow(Clear, false)
  const RAISED := Flow(Started, false)

  // A page whose own flow still says clear.
  function Tab(saved: Flow, shown: Option<QuoteState>, poll: Option<QuoteState>, phase: Phase, paid: bool): Browser {
    Browser(S.QUOTE, RESTING, saved, shown, poll, phase, paid)
  }

  function Waiting(phase: Phase, paid: bool): Browser {
    Tab(RAISED, Some(Ready), None, phase, paid)
  }

  // The quote is shown as ready.
  lemma Shows(w: P.World)
    requires QuoteIs(w.db, S.QUOTE, Ready) && S.Reaches(P.INITIAL, w)
    ensures ReachableStored(Joint(w, Tab(RESTING, Some(Ready), None, Idle, false)))
  {
    var none: seq<Event> := [];
    assert Run(Opened(S.QUOTE), none) == Some(Opened(S.QUOTE));
    var idle := Tab(RESTING, None, None, Idle, false);
    ServesStored(P.INITIAL, w, idle);
    var asked := Tab(RESTING, None, Some(Ready), Idle, false);
    NextStored(Joint(w, idle), Poll, Joint(w, asked));
    NextStored(Joint(w, asked), PollArrives(true), Joint(w, Tab(RESTING, Some(Ready), None, Idle, false)));
  }

  // The guard is raised.
  lemma Signs()
    ensures ReachableStored(Joint(S.READY, Waiting(Signing(RAISED), false)))
  {
    var w := S.READY;
    S.Publishes();
    Shows(w);
    var shown := Tab(RESTING, Some(Ready), None, Idle, false);
    var pressed := Tab(RESTING, Some(Ready), None, Validating, false);
    NextStored(Joint(w, shown), Press(0), Joint(w, pressed));
    NextStored(Joint(w, pressed), Raise(true), Joint(w, Waiting(Signing(RAISED), false)));
  }

  // The paid request goes out, and the gateway serves it.
  lemma Pays(v: P.World)
    requires S.Reaches(S.READY, v)
    ensures ReachableStored(Joint(v, Waiting(Requested(RAISED), true)))
    ensures Reachable(Joint(v, Waiting(Requested(RAISED), true)))
  {
    Signs();
    NextStored(Joint(S.READY, Waiting(Signing(RAISED), false)), Pay, Joint(S.READY, Waiting(Requested(RAISED), true)));
    ServesStored(S.READY, v, Waiting(Requested(RAISED), true));
    StoredIsReachable(Joint(v, Waiting(Requested(RAISED), true)));
  }

  // Submitted and not paid for.
  ghost predicate Open(w: P.World) {
    SubmittedIn(w.db, S.ATTEMPT) && w.db.attempts[S.ATTEMPT].quote == S.QUOTE && S.QUOTE !in w.db.entitlements
  }

  ghost predicate Violates(s: Shape) {
    exists j, e :: B.ResetBy(j, e, s) && !B.NothingOpen(Step(j, e).value)
  }

  lemma Violation(j: Joint, e: Event, s: Shape)
    requires B.ResetBy(j, e, s) && !e.Server? && Open(j.server) && j.tab.quote == S.QUOTE
    ensures Violates(s)
  {
    assert SubmittedIn(j.server.db, S.ATTEMPT);
    assert B.SubmittedFor(j.server.db, j.tab.quote);
    assert !B.NothingOpen(Step(j, e).value);
  }

  // The answer's own save went through and the concluding one failed.
  lemma AnswerLoses(v: P.World, named: bool)
    requires S.Reaches(S.READY, v) && Open(v)
    ensures Violates(ByAnswer(named))
  {
    Pays(v);
    var j := Joint(v, Waiting(Requested(RAISED), true));
    var e := Answer(if named then Unconfirmed(S.ATTEMPT) else Refused, true, true, true, false);
    Violation(j, e, ByAnswer(named));
  }

  // The attempt was cancelled in the wallet; the quote, read at w, was paid by
  // another session by the time the page heard of it.
  lemma Cancels(w: P.World, v: P.World, seen: QuoteState)
    requires S.Reaches(S.READY, w) && S.Reaches(w, v) && QuoteIs(w.db, S.QUOTE, seen)
    ensures ReachableStored(Joint(v, Waiting(Fetched(RAISED, true, Some(seen)), false)))
  {
    Signs();
    var cancelled := Waiting(Cancelled(RAISED), false);
    NextStored(Joint(S.READY, Waiting(Signing(RAISED), false)), CancelInWallet, Joint(S.READY, cancelled));
    ServesStored(S.READY, w, cancelled);
    var fetched := Waiting(Fetched(RAISED, true, Some(seen)), false);
    NextStored(Joint(w, cancelled), Fetch(false), Joint(w, fetched));
    ServesStored(w, v, fetched);
  }

  lemma CancelLoses(w: P.World, v: P.World, seen: QuoteState)
    requires S.Reaches(S.READY, w) && S.Reaches(w, v) && Open(v)
    requires QuoteIs(w.db, S.QUOTE, seen) && seen != Paid
    ensures Violates(ByCancelled(seen))
  {
    Cancels(w, v, seen);
    Violation(Joint(v, Waiting(Fetched(RAISED, true, Some(seen)), false)), Conclude(true, seen == Ready), ByCancelled(seen));
  }

  // Working storage does not help against a ready quote that is read too early.
  lemma StaleReadyIsReached()
    ensures exists j: Joint, e ::
              && ReachableStored(j) && Stores(e) && Resets(j.server.db, j.tab, e)
              && ShapeOf(j.tab, e) == ByCancelled(Ready) && !B.NothingOpen(Step(j, e).value)
  {
    S.Stays(S.READY);
    S.GivesUp();
    Cancels(S.READY, S.UNCERTAIN, Ready);
    var j := Joint(S.UNCERTAIN, Waiting(Fetched(RAISED, true, Some(Ready)), false));
    var e := Conclude(true, true);
    assert SubmittedIn(j.server.db, S.ATTEMPT);
    assert B.SubmittedFor(j.server.db, j.tab.quote);
    assert !B.NothingOpen(Step(j, e).value);
  }

  // After a lapse the page's flow is clear under a raised guard in storage.
  lemma Lapses()
    ensures Reachable(Joint(S.READY, Waiting(Idle, true)))
  {
    S.Stays(S.READY);
    Pays(S.READY);
    Next(Joint(S.READY, Waiting(Requested(RAISED), true)), LoseAnswer(false), Joint(S.READY, Waiting(Idle, true)));
  }

  lemma PollLoses(w: P.World, v: P.World, seen: QuoteState)
    requires S.Reaches(S.READY, w) && S.Reaches(w, v) && Open(v) && QuoteIs(w.db, S.QUOTE, seen)
    ensures Violates(ByPoll(seen))
  {
    Lapses();
    Serves(S.READY, w, Waiting(Idle, true));
    var polled := Tab(RAISED, Some(Ready), Some(seen), Idle, true);
    Next(Joint(w, Waiting(Idle, true)), Poll, Joint(w, polled));
    Serves(w, v, polled);
    Violation(Joint(v, polled), PollArrives(true), ByPoll(seen));
  }

  // A gateway that is asked for the quote in any state but expired and paid, and
  // that has a submitted payment open by the time of the answer.
  lemma OpenWorlds(seen: QuoteState) returns (w: P.World, v: P.World)
    requires seen != Expired && seen != Paid
    ensures S.Reaches(S.READY, w) && S.Reaches(w, v) && Open(v) && QuoteIs(w.db, S.QUOTE, seen)
  {
    match seen {
      case Ready =>
        S.Stays(S.READY);
        S.GivesUp();
        w, v := S.READY, S.UNCERTAIN;
      case PaymentPending =>
        S.Crosses();
        S.Stays(S.CLEARED);
        w, v := S.CLEARED, S.CLEARED;
      case PaymentUncertain =>
        S.GivesUp();
        S.Stays(S.UNCERTAIN);
        w, v := S.UNCERTAIN, S.UNCERTAIN;
      case ManualReview =>
        S.GoesToReview();
        S.Stays(S.REVIEWED);
        w, v := S.REVIEWED, S.REVIEWED;
    }
  }

  lemma UnsafeShapesFail(s: Shape)
    requires s != NoReset && !SafeShape(s)
    ensures Violates(s)
  {
    match s {
      case ByAnswer(named) =>
        S.GivesUp();
        AnswerLoses(S.UNCERTAIN, named);
      case ByCancelled(seen) =>
        var w, v := OpenWorlds(seen);
        CancelLoses(w, v, seen);
      case ByPoll(seen) =>
        var w, v := OpenWorlds(seen);
        PollLoses(w, v, seen);
    }
  }

  // Clearing the stored guard always leaves nothing open exactly when the page
  // holds a report, or has seen the quote expired or paid.
  lemma SoundExactly(s: Shape)
    requires s != NoReset
    ensures B.AlwaysSound(s) <==> SafeShape(s)
  {
    if SafeShape(s) {
      B.SafeShapesAreSound(s);
    } else {
      UnsafeShapesFail(s);
    }
  }

  // A lapse is reached over an open payment, so a session can pay twice.
  lemma PayingTwiceIsReached()
    ensures exists j: Joint :: Reachable(j) && Pending(j.server.db, j.tab) && Step(j, Pay).Some?
  {
    Lapses();
    var again := Tab(RAISED, Some(Ready), None, Validating, true);
    Next(Joint(S.READY, Waiting(Idle, true)), Press(0), Joint(S.READY, again));
    var signing := Waiting(Signing(RAISED), true);
    Next(Joint(S.READY, again), Raise(true), Joint(S.READY, signing));
    assert Pending(S.READY.db, signing);
    assert Step(Joint(S.READY, signing), Pay).Some?;
  }

  // Without a lapse, too: the quote expired, and the guard that this cleared
  // was not saved, so the page goes on showing the quote as ready.
  lemma PayingOverExpiredIsReached()
    ensures exists j: Joint, e ::
              && ReachableStored(j) && j.tab.paid && Step(j, e).Some? && !Lapse(e) && Slips(j.tab, e)
              && QuoteIs(j.server.db, j.tab.quote, Expired) && B.CanPayEver(Step(j, e).value)
  {
    var unsure := Flow(Guard.Uncertain, false);
    var lost := Browser(S.QUOTE, unsure, unsure, Some(Ready), None, Idle, true);
    var polled := Browser(S.QUOTE, unsure, unsure, Some(Ready), Some(Expired), Idle, true);
    S.Stays(S.READY);
    Pays(S.READY);
    NextStored(Joint(S.READY, Waiting(Requested(RAISED), true)), LoseAnswer(true), Joint(S.READY, lost));
    S.Expires();
    ServesStored(S.READY, S.OUTDATED, lost);
    NextStored(Joint(S.OUTDATED, lost), Poll, Joint(S.OUTDATED, polled));
    var j, e := Joint(S.OUTDATED, polled), PollArrives(false);
    B.StoredIsUnslipped(j);
    assert Slips(j.tab, e);
    B.PaysEverExactly(j, e);
  }
}
