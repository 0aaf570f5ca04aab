// Expiry, retention, builds and triggers over every run.

module Housekeeping {
  import opened Wrappers
  import opened LedgerRows
  import opened LedgerTransactions
  import opened LedgerInvariant
  import opened LedgerSteps
  import opened SubmissionSteps
  import opened ConfirmationSteps
  import opened Protocol
  import opened SystemInvariant
  import opened Guarantees

  // ------------------------------------------------------------------ expiry

  lemma ExpiredIdle(w: World, q: Id)
    requires Reachable(w) && QuoteIs(w.db, q, Expired)
    ensures forall a :: a in w.db.attempts && w.db.attempts[a].quote == q ==> w.db.attempts[a].state == Rejected
    ensures q !in w.db.entitlements
    ensures forall i :: 0 <= i < |w.settles| ==> w.settles[i] in w.db.attempts && w.db.attempts[w.settles[i]].quote != q
  {
    ReachableHolds(w);
    assert Keeps(w.db, LockstepRule);
    forall a | a in w.db.attempts && w.db.attempts[a].quote == q
      ensures w.db.attempts[a].state == Rejected
    {
      assert !Active(w.db, a);
    }
    if q in w.db.entitlements {
      EntitledNotExpired(w.db, q);
    }
    forall i | 0 <= i < |w.settles|
      ensures w.settles[i] in w.db.attempts && w.db.attempts[w.settles[i]].quote != q
    {
      var a := w.settles[i];
      assert a in w.settles && SubmittedIn(w.db, a);
    }
  }

  // An expired quote stays expired: all its attempts are rejected, nothing of
  // it was or will be settled, and it is never entitled.
  lemma ExpiredForever(first: seq<Action>, rest: seq<Action>, q: Id)
    requires QuoteIs(Run(INITIAL, first).db, q, Expired)
    ensures var w := Run(INITIAL, first + rest);
            && QuoteIs(w.db, q, Expired) && q !in w.db.entitlements
            && (forall a :: a in w.db.attempts && w.db.attempts[a].quote == q ==> w.db.attempts[a].state == Rejected)
            && (forall i :: 0 <= i < |w.settles| ==> w.settles[i] in w.db.attempts && w.db.attempts[w.settles[i]].quote != q)
  {
    RunOn(first, rest);
    ExpiredIdle(Run(INITIAL, first + rest), q);
  }

  // A report that retention deleted is never brought back, and its quote is
  // not and will never be entitled.
  lemma DeletedForever(first: seq<Action>, rest: seq<Action>, q: Id)
    requires var db := Run(INITIAL, first).db;
             q in db.quotes && db.quotes[q].report in db.artifacts && db.artifacts[db.quotes[q].report].storage == Deleted
    ensures var db := Run(INITIAL, first + rest).db;
            && q in db.quotes && db.quotes[q].report in db.artifacts
            && db.artifacts[db.quotes[q].report].storage == Deleted
            && db.quotes[q].state == Expired && q !in db.entitlements
  {
    RunOn(first, rest);
    ReachableHolds(Run(INITIAL, first));
    assert Keeps(Run(INITIAL, first).db, StorageRule);
    ExpiredForever(first, rest, q);
  }

  // ------------------------------------------------------------------ builds

  lemma Builds(w: World)
    requires Reachable(w)
    ensures |LiveLeases(w.db)| <= BUILD_SLOTS
    ensures forall i, j :: 0 <= i < j < |w.claims| ==> w.claims[i] != w.claims[j]
    ensures forall p, q :: p in w.db.quotes && q in w.db.quotes && w.db.quotes[p].request == w.db.quotes[q].request ==> p == q
  {
    ReachableHolds(w);
    assert Keeps(w.db, SlotRule) && Keeps(w.db, QuoteRule);
  }

  // A build that was swept or rejected is never published by a late worker.
  lemma FailedForever(first: seq<Action>, rest: seq<Action>, r: Id)
    requires var db := Run(INITIAL, first).db;
             r in db.requests && db.requests[r].state in {BuildFailed, RequestRejected}
    ensures var db := Run(INITIAL, first + rest).db;
            && r in db.requests && db.requests[r] == Run(INITIAL, first).db.requests[r]
            && forall q :: q in db.quotes ==> db.quotes[q].request != r
  {
    RunOn(first, rest);
    var db := Run(INITIAL, first + rest).db;
    assert Keeps(db, RequestRule) && Keeps(db, QuoteRule);
    assert db.requests[r].quote.None?;
  }

  // ---------------------------------------------------------------- triggers

  // The state-transition triggers agree with the code: no transaction that a
  // process is about to run is refused by them.
  lemma TriggersSilent(w: World, p: Id, id: Id, auth: Authorization, merchant: Option<Id>, clock: Time)
    requires Reachable(w) && p in w.procs
    ensures var c := w.procs[p];
            match c
            case SignatureVerified(view, who) => BeginAttempt(w.db, view.id, id, auth, clock) != Err(TransitionTrigger)
            case Begun(view, a, who) => MarkSubmitting(w.db, view.id, a, merchant, clock) != Err(TransitionTrigger)
            case Recording(view, a, tx, who, threw) => MarkUnknown(w.db, view.id, a, tx).Ok?
            case Recovered(view, a, tx, receipt) => MarkUnknown(w.db, view.id, a, tx).Ok?
            case Catching(view, a, tx, review) => MarkUnknown(w.db, view.id, a, tx).Ok?
            case Reviewing(view, a) => HoldForReview(w.db, view.id, a).Ok?
            case Observed(view, a, tx, receipt, who) => Confirm(w.db, view, a, receipt) != Err(TransitionTrigger)
            case _ => true
  {
    ReachableHolds(w);
    var c := w.procs[p];
    assert Knows(w.db, c);
    match c
    case SignatureVerified(view, who) => BeginAttemptCommits(w.db, view.id, id, auth, clock);
    case Begun(view, a, who) => SubmittingNeverTriggers(w.db, view.id, a, merchant, clock);
    case Recording(view, a, tx, who, threw) => PairedIn(w.db, view.id, a); MarkUnknownCommits(w.db, view.id, a, tx);
    case Recovered(view, a, tx, receipt) => PairedIn(w.db, view.id, a); MarkUnknownCommits(w.db, view.id, a, tx);
    case Catching(view, a, tx, review) => PairedIn(w.db, view.id, a); MarkUnknownCommits(w.db, view.id, a, tx);
    case Reviewing(view, a) => PairedIn(w.db, view.id, a); HoldForReviewCommits(w.db, view.id, a);
    case Observed(view, a, tx, receipt, who) => ConfirmNeverTriggers(w.db, view, a, receipt);
    case _ =>
  }

  lemma SubmittingNeverTriggers(db: Db, q: Id, a: Id, merchant: Option<Id>, clock: Time)
    requires Inv(db) && a in db.attempts && db.attempts[a].quote == q
    ensures MarkSubmitting(db, q, a, merchant, clock) != Err(TransitionTrigger)
  {
    assert Keeps(db, AttemptRule) && Keeps(db, LockstepRule);
    assert db.attempts[a].state == Verified ==> Active(db, a);
    MarkSubmittingCases(db, q, a, merchant, clock);
  }

  lemma ConfirmNeverTriggers(db: Db, view: QuoteView, a: Id, r: Receipt)
    requires Inv(db) && SubmittedIn(db, a)
    ensures Confirm(db, view, a, r) != Err(TransitionTrigger)
  {
    PairedIn(db, db.attempts[a].quote, a);
    if db.attempts[a].state != Confirmed {
      ConfirmDecides(db, view, a, r);
    }
  }
}
