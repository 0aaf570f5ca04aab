// One run in full: a report is requested, built, quoted, paid and confirmed.
// It shows that the states the guarantees speak of are reached.

module SampleRun {
  import opened Wrappers
  import opened LedgerRows
  import opened LedgerTransactions
  import opened LedgerInvariant
  import opened Protocol
  import opened SystemInvariant
  import opened Guarantees

  const REQUEST: Id := 1
  const BUILDER: Id := 2
  const QUOTE: Id := 3
  const READER: Id := 4
  const ATTEMPT: Id := 5
  const REPORT: Id := 6
  const SHA: Id := 7
  const PAYER: Id := 8
  const PAY_TO: Id := 9
  const SCOPE: Id := 10
  const HASH: Id := 11

  const BODY := Body(PAYER, 0)
  const TERMS := Correlation(Merchant, Absent, None, false, Some(NETWORK), Some(ASSET), Some(AMOUNT),
                             Some(PAYER), Some(PAY_TO), Some(0), true)
  const AUTH := Authorization(12, true, 1_000, TERMS)
  const VIEW := QuoteView(QUOTE, SCOPE, REPORT, SHA, PAY_TO, PAYER, 1_000)
  const RECEIPT := Receipt(QUOTE, REPORT, SHA, ATTEMPT, NETWORK, ASSET, AMOUNT, PAYER, PAY_TO, HASH, 0, 0)

  function Asked(lease: Option<Time>): RequestRow {
    RequestRow(SCOPE, 13, BODY, REPORT, Preparing, None, lease)
  }

  const REQUESTED := EMPTY.(requests := map[REQUEST := Asked(None)])
  const CLAIMED := EMPTY.(requests := map[REQUEST := Asked(Some(LEASE))])

  // The published quote, with its state and its one attempt.
  function Sold(state: QuoteState, attempts: map<Id, AttemptRow>): Db {
    EMPTY.(requests := map[REQUEST := RequestRow(SCOPE, 13, BODY, REPORT, RequestReady, Some(QUOTE), None)],
           artifacts := map[REPORT := ArtifactRow(SCOPE, SHA, Available)],
           quotes := map[QUOTE := QuoteRow(REQUEST, SCOPE, REPORT, PAY_TO, PAYER, 1_000, state)],
           attempts := attempts)
  }

  function Attempted(state: AttemptState, tx: Option<Id>, next: Time): map<Id, AttemptRow> {
    map[ATTEMPT := AttemptRow(QUOTE, AUTH, state, tx, 0, 0, next)]
  }

  function Reading(db: Db, reader: Proc, settles: seq<Id>): World {
    World(db, map[BUILDER := Stopped, READER := reader], settles, [REQUEST])
  }

  const READY := World(Sold(Ready, map[]), map[BUILDER := Stopped], [], [REQUEST])
  // Nobody paid in time.
  const OUTDATED := READY.(db := Sold(Expired, map[]).(now := 1_000))

  const LOADED := Reading(Sold(Ready, map[]), Loaded(VIEW, Ready, Gateway), [])
  const VERIFIED := Reading(Sold(Ready, map[]), SignatureVerified(VIEW, Gateway), [])
  const BEGUN := Reading(Sold(PaymentPending, Attempted(Verified, None, 0)), Begun(VIEW, ATTEMPT, Gateway), [])
  const CLEARED :=
    Reading(Sold(PaymentPending, Attempted(Submitting, None, FIRST_RECONCILE)), Cleared(VIEW, ATTEMPT, Gateway), [])
  const SETTLED :=
    Reading(Sold(PaymentPending, Attempted(Submitting, None, FIRST_RECONCILE)),
            Recording(VIEW, ATTEMPT, Some(HASH), Gateway, false), [ATTEMPT])
  const RECORDED :=
    Reading(Sold(PaymentUncertain, Attempted(Unknown, Some(HASH), FIRST_RECONCILE)),
            Confirming(VIEW, ATTEMPT, Some(HASH), Gateway), [ATTEMPT])

  // Without a receipt the reader answers 202 and stops.
  const MISSED :=
    Reading(Sold(PaymentUncertain, Attempted(Unknown, Some(HASH), FIRST_RECONCILE)),
            Catching(VIEW, ATTEMPT, Some(HASH), false), [ATTEMPT])
  const UNCERTAIN :=
    Reading(Sold(PaymentUncertain, Attempted(Unknown, Some(HASH), FIRST_RECONCILE)), Stopped, [ATTEMPT])

  const OBSERVED :=
    Reading(Sold(PaymentUncertain, Attempted(Unknown, Some(HASH), FIRST_RECONCILE)),
            Observed(VIEW, ATTEMPT, Some(HASH), RECEIPT, Gateway), [ATTEMPT])
  const PAID_DB :=
    Sold(Paid, Attempted(Confirmed, Some(HASH), FIRST_RECONCILE)).(
      events := map[(HASH, 0) := ATTEMPT],
      entitlements := map[QUOTE := Entitlement(ATTEMPT, REPORT, SCOPE, SHA, RECEIPT, RETENTION)])
  const PAID := Reading(PAID_DB, Rereading(VIEW), [ATTEMPT])

  const ASKED_FOR := World(REQUESTED, map[], [], [])
  const BEING_BUILT := World(CLAIMED, map[BUILDER := Building(REQUEST, Asked(Some(LEASE)))], [], [REQUEST])

  // With an answer that asks for review, the payment is held.
  const HELD :=
    Reading(Sold(PaymentUncertain, Attempted(Unknown, Some(HASH), FIRST_RECONCILE)),
            Catching(VIEW, ATTEMPT, Some(HASH), true), [ATTEMPT])
  const TO_REVIEW :=
    Reading(Sold(PaymentUncertain, Attempted(Unknown, Some(HASH), FIRST_RECONCILE)), Reviewing(VIEW, ATTEMPT), [ATTEMPT])
  const REVIEWED :=
    Reading(Sold(ManualReview, Attempted(InReview, Some(HASH), FIRST_RECONCILE)), Stopped, [ATTEMPT])

  // ------------------------------------------------------------- step by step

  ghost predicate Reaches(from: World, to: World) {
    exists actions: seq<Action> :: to == Run(from, actions)
  }

  lemma Stays(w: World)
    ensures Reaches(w, w)
  {
    assert Run(w, []) == w;
  }

  lemma Onwards(from: World, w: World, action: Action, next: World)
    requires Reaches(from, w) && Step(w, action) == next
    ensures Reaches(from, next)
  {
    var actions :| w == Run(from, actions);
    assert (actions + [action])[..|actions|] == actions;
    assert next == Run(from, actions + [action]);
  }

  lemma Requests()
    ensures Reaches(INITIAL, ASKED_FOR)
  {
    Stays(INITIAL);
    Onwards(INITIAL, INITIAL, Create(REQUEST, SCOPE, 13, BODY, REPORT, true), ASKED_FOR);
  }

  lemma Claims()
    ensures Reaches(INITIAL, BEING_BUILT)
  {
    Requests();
    assert SweepLeases(REQUESTED) == REQUESTED;
    assert LiveLeases(REQUESTED) == {};
    Onwards(INITIAL, ASKED_FOR, Claim(BUILDER, REQUEST), BEING_BUILT);
  }

  lemma Publishes()
    ensures Reaches(INITIAL, READY)
  {
    Claims();
    Onwards(INITIAL, BEING_BUILT, FinishBuild(BUILDER, REPORT, SHA, QUOTE, PAY_TO, 1_000), READY);
  }

  lemma Loads()
    ensures Reaches(READY, LOADED)
  {
    Stays(READY);
    Onwards(READY, READY, Load(READER, QUOTE, Gateway), LOADED);
  }

  lemma Verifies()
    ensures Reaches(READY, VERIFIED)
  {
    Loads();
    Onwards(READY, LOADED, VerifySignature(READER), VERIFIED);
  }

  lemma BeginMoves(from: World, w: World, db: Db)
    requires Reaches(from, w) && READER in w.procs && w.procs[READER] == SignatureVerified(VIEW, Gateway)
    requires BeginAttempt(w.db, QUOTE, ATTEMPT, AUTH, 0) == Ok((db, ATTEMPT))
    ensures Reaches(from, Commit(w, db, READER, Begun(VIEW, ATTEMPT, Gateway)))
  {
    Onwards(from, w, Begin(READER, ATTEMPT, AUTH, 0), Commit(w, db, READER, Begun(VIEW, ATTEMPT, Gateway)));
  }

  lemma BeginCommits()
    ensures BeginAttempt(VERIFIED.db, QUOTE, ATTEMPT, AUTH, 0) == Ok((BEGUN.db, ATTEMPT))
  {
    var tx := BeginAttempt(VERIFIED.db, QUOTE, ATTEMPT, AUTH, 0);
    assert tx.Ok? && tx.value.0.attempts == BEGUN.db.attempts && tx.value.0.quotes == BEGUN.db.quotes;
  }

  lemma Begins()
    ensures Reaches(READY, BEGUN)
  {
    Verifies();
    BeginCommits();
    BeginMoves(READY, VERIFIED, BEGUN.db);
  }

  lemma SubmissionMoves(from: World, w: World, db: Db)
    requires Reaches(from, w) && READER in w.procs && w.procs[READER] == Begun(VIEW, ATTEMPT, Gateway)
    requires MarkSubmitting(w.db, QUOTE, ATTEMPT, Some(PAY_TO), 0) == Ok((db, Submit))
    ensures Reaches(from, Commit(w, db, READER, Cleared(VIEW, ATTEMPT, Gateway)))
  {
    Onwards(from, w, Submission(READER, Some(PAY_TO), 0), Commit(w, db, READER, Cleared(VIEW, ATTEMPT, Gateway)));
  }

  lemma SubmissionCommits()
    ensures MarkSubmitting(BEGUN.db, QUOTE, ATTEMPT, Some(PAY_TO), 0) == Ok((CLEARED.db, Submit))
  {
    var tx := MarkSubmitting(BEGUN.db, QUOTE, ATTEMPT, Some(PAY_TO), 0);
    assert tx.Ok? && tx.value.0.attempts == CLEARED.db.attempts;
  }

  lemma Crosses()
    ensures Reaches(READY, CLEARED)
  {
    Begins();
    SubmissionCommits();
    SubmissionMoves(READY, BEGUN, CLEARED.db);
  }

  lemma Settles()
    ensures Reaches(READY, SETTLED)
  {
    Crosses();
    Onwards(READY, CLEARED, Settle(READER, Some(HASH), false), SETTLED);
  }

  lemma RecordMoves(from: World, w: World, db: Db)
    requires Reaches(from, w) && READER in w.procs && w.procs[READER] == Recording(VIEW, ATTEMPT, Some(HASH), Gateway, false)
    requires MarkUnknown(w.db, QUOTE, ATTEMPT, Some(HASH)) == Ok((db, ()))
    ensures Reaches(from, Commit(w, db, READER, Confirming(VIEW, ATTEMPT, Some(HASH), Gateway)))
  {
    Onwards(from, w, Record(READER), Commit(w, db, READER, Confirming(VIEW, ATTEMPT, Some(HASH), Gateway)));
  }

  lemma RecordCommits()
    ensures MarkUnknown(SETTLED.db, QUOTE, ATTEMPT, Some(HASH)) == Ok((RECORDED.db, ()))
  {
    var tx := MarkUnknown(SETTLED.db, QUOTE, ATTEMPT, Some(HASH));
    assert tx.Ok? && tx.value.0.attempts == RECORDED.db.attempts && tx.value.0.quotes == RECORDED.db.quotes;
  }

  lemma RecordedNext()
    ensures Commit(SETTLED, RECORDED.db, READER, Confirming(VIEW, ATTEMPT, Some(HASH), Gateway)) == RECORDED
  {
  }

  lemma Records()
    ensures Reaches(READY, RECORDED)
  {
    Settles();
    RecordCommits();
    RecordMoves(READY, SETTLED, RECORDED.db);
    RecordedNext();
  }

  lemma Observes()
    ensures Reaches(READY, OBSERVED)
  {
    Records();
    Onwards(READY, RECORDED, Ask(READER, Confirmation(RECEIPT)), OBSERVED);
  }

  lemma ConfirmMoves(from: World, w: World, db: Db)
    requires Reaches(from, w) && READER in w.procs && w.procs[READER] == Observed(VIEW, ATTEMPT, Some(HASH), RECEIPT, Gateway)
    requires Confirm(w.db, VIEW, ATTEMPT, RECEIPT) == Ok((db, ()))
    ensures Reaches(from, Commit(w, db, READER, Rereading(VIEW)))
  {
    Onwards(from, w, ConfirmReceipt(READER), Commit(w, db, READER, Rereading(VIEW)));
  }

  lemma PayCommits()
    ensures Pay(OBSERVED.db, VIEW, ATTEMPT, RECEIPT) == Ok((PAID_DB, ()))
  {
    var tx := Pay(OBSERVED.db, VIEW, ATTEMPT, RECEIPT);
    assert tx.Ok? && tx.value.0.attempts == PAID_DB.attempts && tx.value.0.quotes == PAID_DB.quotes;
    assert tx.value.0.events == PAID_DB.events && tx.value.0.entitlements == PAID_DB.entitlements;
  }

  lemma ConfirmCommits()
    ensures Confirm(OBSERVED.db, VIEW, ATTEMPT, RECEIPT) == Ok((PAID_DB, ()))
  {
    PayCommits();
    assert KnownTerms(OBSERVED.db, VIEW) && ReceiptBinds(VIEW, ATTEMPT, RECEIPT);
  }

  lemma Confirms()
    ensures Reaches(READY, PAID)
  {
    Observes();
    ConfirmCommits();
    ConfirmMoves(READY, OBSERVED, PAID_DB);
  }

  lemma Misses()
    ensures Reaches(READY, MISSED)
  {
    Records();
    Onwards(READY, RECORDED, Ask(READER, NoReceipt), MISSED);
  }

  lemma CatchMoves(from: World, w: World, db: Db)
    requires Reaches(from, w) && READER in w.procs && w.procs[READER] == Catching(VIEW, ATTEMPT, Some(HASH), false)
    requires MarkUnknown(w.db, QUOTE, ATTEMPT, Some(HASH)) == Ok((db, ()))
    ensures Reaches(from, Commit(w, db, READER, Stopped))
  {
    Onwards(from, w, Catch(READER), Commit(w, db, READER, Stopped));
  }

  lemma CatchCommits()
    ensures MarkUnknown(MISSED.db, QUOTE, ATTEMPT, Some(HASH)) == Ok((UNCERTAIN.db, ()))
  {
    var tx := MarkUnknown(MISSED.db, QUOTE, ATTEMPT, Some(HASH));
    assert tx.Ok? && tx.value.0.attempts == UNCERTAIN.db.attempts && tx.value.0.quotes == UNCERTAIN.db.quotes;
  }

  lemma GivesUp()
    ensures Reaches(READY, UNCERTAIN)
  {
    Misses();
    CatchCommits();
    CatchMoves(READY, MISSED, UNCERTAIN.db);
  }

  lemma Holds()
    ensures Reaches(READY, HELD)
  {
    Records();
    Onwards(READY, RECORDED, Ask(READER, Failed(true)), HELD);
  }

  lemma HeldMoves(from: World, w: World, db: Db)
    requires Reaches(from, w) && READER in w.procs && w.procs[READER] == Catching(VIEW, ATTEMPT, Some(HASH), true)
    requires MarkUnknown(w.db, QUOTE, ATTEMPT, Some(HASH)) == Ok((db, ()))
    ensures Reaches(from, Commit(w, db, READER, Reviewing(VIEW, ATTEMPT)))
  {
    Onwards(from, w, Catch(READER), Commit(w, db, READER, Reviewing(VIEW, ATTEMPT)));
  }

  lemma AsksForReview()
    ensures Reaches(READY, TO_REVIEW)
  {
    Holds();
    assert HELD.db == MISSED.db && TO_REVIEW.db == UNCERTAIN.db;
    CatchCommits();
    HeldMoves(READY, HELD, TO_REVIEW.db);
  }

  lemma ReviewMoves(from: World, w: World, db: Db)
    requires Reaches(from, w) && READER in w.procs && w.procs[READER] == Reviewing(VIEW, ATTEMPT)
    requires HoldForReview(w.db, QUOTE, ATTEMPT) == Ok((db, ()))
    ensures Reaches(from, Commit(w, db, READER, Stopped))
  {
    Onwards(from, w, Review(READER), Commit(w, db, READER, Stopped));
  }

  lemma ReviewCommits()
    ensures HoldForReview(TO_REVIEW.db, QUOTE, ATTEMPT) == Ok((REVIEWED.db, ()))
  {
    var tx := HoldForReview(TO_REVIEW.db, QUOTE, ATTEMPT);
    assert tx.Ok? && tx.value.0.attempts == REVIEWED.db.attempts && tx.value.0.quotes == REVIEWED.db.quotes;
  }

  lemma GoesToReview()
    ensures Reaches(READY, REVIEWED)
  {
    AsksForReview();
    ReviewCommits();
    ReviewMoves(READY, TO_REVIEW, REVIEWED.db);
  }

  lemma Expires()
    ensures Reaches(READY, OUTDATED)
  {
    Stays(READY);
    var late := READY.(db := READY.db.(now := 1_000));
    Onwards(READY, READY, Tick(1_000), late);
    var swept := SweepExpired(late.db);
    assert swept.quotes == OUTDATED.db.quotes;
    assert swept == OUTDATED.db;
    Onwards(READY, late, SweepQuotes, OUTDATED);
  }

  lemma Joined(w: World, v: World)
    requires w == READY && Reaches(w, v)
    ensures Reachable(v)
  {
    Publishes();
    var first :| w == Run(INITIAL, first);
    var rest :| v == Run(w, rest);
    RunConcat(INITIAL, first, rest);
    assert v == Run(INITIAL, first + rest);
  }

  // A paid and entitled quote is reached, with one settlement behind it.
  lemma PaidIsReached()
    ensures Reachable(PAID)
    ensures QuoteIs(PAID.db, QUOTE, Paid) && QUOTE in PAID.db.entitlements && PAID.settles == [ATTEMPT]
  {
    Confirms();
    Joined(READY, PAID);
  }

  // So is a submitted payment that nobody has confirmed and whose reader is gone.
  lemma UncertainIsReached()
    ensures Reachable(UNCERTAIN)
    ensures SubmittedIn(UNCERTAIN.db, ATTEMPT) && QUOTE !in UNCERTAIN.db.entitlements
  {
    GivesUp();
    Joined(READY, UNCERTAIN);
  }
}
