// Every transaction keeps the ledger invariant and undoes nothing, given what
// its caller knows about the attempt it acts on.

module LedgerSteps {
  import opened Wrappers
  import opened LedgerRows
  import opened LedgerTransactions
  import opened LedgerInvariant

  ghost predicate Safe(d: Db, e: Db) {
    Inv(e) && Extends(d, e)
  }

  // ------------------------------------------------------- frames of the groups

  lemma CoreFrame(d: Db, e: Db)
    requires KeepsAll(d, Core)
    requires e.requests == d.requests && e.artifacts == d.artifacts && e.quotes == d.quotes && e.attempts == d.attempts && d.now <= e.now
    ensures KeepsAll(e, Core)
  {
    forall rule: Rule | GroupOf(rule) == Core
      ensures Keeps(e, rule)
    {
      assert Keeps(d, rule);
      match rule
      case RequestRule =>
      case QuoteRule =>
      case AttemptRule =>
      case OneActiveRule => OneActiveFrame(d, e);
      case LockstepRule => LockstepFrame(d, e);
      case HeldRule => HeldFrame(d, e);
      case AuthorizationRule =>
      case SlotRule => SlotsFrame(d, e);
    }
  }

  lemma OneActiveFrame(d: Db, e: Db)
    requires OneActive(d) && e.attempts == d.attempts
    ensures OneActive(e)
  {
    forall a, b | Active(e, a) && Active(e, b) && e.attempts[a].quote == e.attempts[b].quote
      ensures a == b
    {
      assert Active(d, a) && Active(d, b);
    }
  }

  lemma LockstepFrame(d: Db, e: Db)
    requires InLockstep(d) && e.attempts == d.attempts && e.quotes == d.quotes
    ensures InLockstep(e)
  {
    forall a | Active(e, a)
      ensures e.attempts[a].state != Received && e.attempts[a].quote in e.quotes
      ensures e.quotes[e.attempts[a].quote].state == StateFor(e.attempts[a].state)
    {
      assert Active(d, a);
    }
  }

  lemma HolderKept(d: Db, e: Db, q: Id)
    requires HasActive(d, q)
    requires forall a :: a in d.attempts && d.attempts[a].quote == q ==>
               a in e.attempts && e.attempts[a].quote == q && (d.attempts[a].state != Rejected ==> e.attempts[a].state != Rejected)
    ensures HasActive(e, q)
  {
    var a :| Active(d, a) && d.attempts[a].quote == q;
    assert Active(e, a);
  }

  lemma HeldFrame(d: Db, e: Db)
    requires BusyQuotesHeld(d) && e.attempts == d.attempts && e.quotes == d.quotes
    ensures BusyQuotesHeld(e)
  {
    forall q | q in e.quotes && e.quotes[q].state !in {Ready, Expired}
      ensures HasActive(e, q)
    {
      HolderKept(d, e, q);
    }
  }

  lemma SlotsFrame(d: Db, e: Db)
    requires SlotsKept(d) && e.requests == d.requests && d.now <= e.now
    ensures SlotsKept(e)
  {
    Subset(LiveLeases(e), LiveLeases(d));
  }

  lemma Subset(a: set<Id>, b: set<Id>)
    requires a <= b
    ensures |a| <= |b|
  {
    assert b == a + (b - a);
  }

  lemma PayingFrame(d: Db, e: Db)
    requires KeepsAll(d, Paying)
    requires e.artifacts == d.artifacts && e.quotes == d.quotes && e.attempts == d.attempts
    requires e.events == d.events && e.entitlements == d.entitlements && e.deliveries == d.deliveries
    ensures KeepsAll(e, Paying)
  {
    forall rule: Rule | GroupOf(rule) == Paying
      ensures Keeps(e, rule)
    {
      assert Keeps(d, rule);
      match rule
      case EntitlementRule => EntitlementsFrame(d, e);
      case ConfirmedRule =>
      case EventRule =>
      case DeliveryRule =>
      case StorageRule =>
    }
  }

  lemma EntitlementsFrame(d: Db, e: Db)
    requires EntitlementsHold(d)
    requires e.artifacts == d.artifacts && e.quotes == d.quotes && e.attempts == d.attempts
    requires e.events == d.events && e.entitlements == d.entitlements
    ensures EntitlementsHold(e)
  {
    forall q | q in e.entitlements
      ensures EntitlementHolds(e, q)
    {
      assert EntitlementHolds(d, q);
    }
  }

  lemma SpendingFrame(d: Db, e: Db)
    requires KeepsAll(d, Spending)
    requires e.attempts == d.attempts && e.consumptions == d.consumptions
    requires e.authorities == d.authorities && e.reservations == d.reservations
    ensures KeepsAll(e, Spending)
  {
    forall rule: Rule | GroupOf(rule) == Spending
      ensures Keeps(e, rule)
    {
      assert Keeps(d, rule);
      match rule
      case ConsumptionRule => assert forall a :: SubmittedIn(e, a) <==> SubmittedIn(d, a);
      case ReservationRule => assert forall a :: SubmittedIn(e, a) <==> SubmittedIn(d, a);
      case BudgetRule => BudgetsFrame(d, e);
      case FundingRule => FundingFrame(d, e);
    }
  }

  lemma BudgetsFrame(d: Db, e: Db)
    requires BudgetsKept(d) && e.authorities == d.authorities && e.reservations == d.reservations
    ensures BudgetsKept(e)
  {
    forall grant: Id
      ensures BudgetKept(e, grant)
    {
      assert BudgetKept(d, grant);
    }
  }

  lemma FundingFrame(d: Db, e: Db)
    requires SubmissionsFunded(d)
    requires e.attempts == d.attempts && e.consumptions == d.consumptions && e.reservations == d.reservations
    ensures SubmissionsFunded(e)
  {
    forall a | SubmittedIn(e, a)
      ensures Funded(e, a)
    {
      assert SubmittedIn(d, a);
    }
  }

  // ------------------------------------------- one attempt moves with its quote

  // Only attempts and quotes change, each row as Extends allows, and attempts
  // may be added.
  ghost predicate PaymentMove(d: Db, e: Db) {
    && e == d.(attempts := e.attempts, quotes := e.quotes)
    && (forall q :: q in e.quotes <==> q in d.quotes)
    && (forall a :: a in d.attempts ==> a in e.attempts && AttemptKept(d.attempts[a], e.attempts[a]))
    && (forall q :: q in d.quotes ==> QuoteKept(d.quotes[q], e.quotes[q]))
  }

  function Restate(db: Db, a: Id, row: AttemptRow, state: QuoteState): Db
    requires row.quote in db.quotes
  {
    db.(attempts := db.attempts[a := row],
        quotes := db.quotes[row.quote := db.quotes[row.quote].(state := state)])
  }

  ghost predicate Legal(db: Db, a: Id, row: AttemptRow, state: QuoteState) {
    && Active(db, a) && AttemptKept(db.attempts[a], row) && row.state != Received
    && row.quote in db.quotes
    && QuoteKept(db.quotes[row.quote], db.quotes[row.quote].(state := state))
    && (if row.state == Rejected then state in {Ready, Expired} else state == StateFor(row.state))
  }

  lemma RestateMoves(d: Db, a: Id, row: AttemptRow, state: QuoteState)
    requires Legal(d, a, row, state)
    ensures PaymentMove(d, Restate(d, a, row, state))
  {
  }

  lemma MoveGrows(d: Db, e: Db)
    requires PaymentMove(d, e)
    ensures Grows(d, e)
  {
  }

  lemma MoveExtends(d: Db, e: Db)
    requires PaymentMove(d, e) && ReviewsLast(d, e)
    ensures Extends(d, e)
  {
  }

  lemma LinksMove(d: Db, e: Db)
    requires RequestsLinked(d) && QuotesLinked(d) && SlotsKept(d) && PaymentMove(d, e)
    ensures RequestsLinked(e) && QuotesLinked(e) && SlotsKept(e)
  {
    assert LiveLeases(e) == LiveLeases(d);
  }

  lemma AttemptsMove(d: Db, a: Id, row: AttemptRow, state: QuoteState)
    requires AttemptsLinked(d) && AuthorizationsUnique(d) && Legal(d, a, row, state)
    ensures AttemptsLinked(Restate(d, a, row, state)) && AuthorizationsUnique(Restate(d, a, row, state))
  {
  }

  lemma OneActiveMoves(d: Db, a: Id, row: AttemptRow, state: QuoteState)
    requires OneActive(d) && Legal(d, a, row, state)
    ensures OneActive(Restate(d, a, row, state))
  {
    var e := Restate(d, a, row, state);
    forall b, c | Active(e, b) && Active(e, c) && e.attempts[b].quote == e.attempts[c].quote
      ensures b == c
    {
      assert Active(d, b) && Active(d, c);
    }
  }

  lemma LockstepMoves(d: Db, a: Id, row: AttemptRow, state: QuoteState)
    requires OneActive(d) && InLockstep(d) && Legal(d, a, row, state)
    ensures InLockstep(Restate(d, a, row, state))
  {
    var e := Restate(d, a, row, state);
    forall b | Active(e, b)
      ensures e.attempts[b].state != Received && e.attempts[b].quote in e.quotes
      ensures e.quotes[e.attempts[b].quote].state == StateFor(e.attempts[b].state)
    {
      if b != a {
        assert Active(d, b) && Active(d, a);
      }
    }
  }

  lemma HoldersMove(d: Db, a: Id, row: AttemptRow, state: QuoteState)
    requires BusyQuotesHeld(d) && Legal(d, a, row, state)
    ensures BusyQuotesHeld(Restate(d, a, row, state))
  {
    var e := Restate(d, a, row, state);
    forall q | q in e.quotes && e.quotes[q].state !in {Ready, Expired}
      ensures HasActive(e, q)
    {
      if q == row.quote {
        assert Active(e, a);
      } else {
        HolderKept(d, e, q);
      }
    }
  }

  lemma CoreMoves(d: Db, a: Id, row: AttemptRow, state: QuoteState)
    requires KeepsAll(d, Core) && Legal(d, a, row, state)
    ensures KeepsAll(Restate(d, a, row, state), Core)
  {
    var e := Restate(d, a, row, state);
    forall rule: Rule | GroupOf(rule) == Core
      ensures Keeps(e, rule)
    {
      match rule
      case RequestRule => LinksMoveAll(d, a, row, state);
      case QuoteRule => LinksMoveAll(d, a, row, state);
      case SlotRule => LinksMoveAll(d, a, row, state);
      case AttemptRule => assert Keeps(d, AttemptRule) && Keeps(d, AuthorizationRule); AttemptsMove(d, a, row, state);
      case AuthorizationRule => assert Keeps(d, AttemptRule) && Keeps(d, AuthorizationRule); AttemptsMove(d, a, row, state);
      case OneActiveRule => assert Keeps(d, OneActiveRule); OneActiveMoves(d, a, row, state);
      case LockstepRule => assert Keeps(d, OneActiveRule) && Keeps(d, LockstepRule); LockstepMoves(d, a, row, state);
      case HeldRule => assert Keeps(d, HeldRule); HoldersMove(d, a, row, state);
    }
  }

  lemma LinksMoveAll(d: Db, a: Id, row: AttemptRow, state: QuoteState)
    requires KeepsAll(d, Core) && Legal(d, a, row, state)
    ensures var e := Restate(d, a, row, state);
            Keeps(e, RequestRule) && Keeps(e, QuoteRule) && Keeps(e, SlotRule)
  {
    assert Keeps(d, RequestRule) && Keeps(d, QuoteRule) && Keeps(d, SlotRule);
    RestateMoves(d, a, row, state);
    LinksMove(d, Restate(d, a, row, state));
  }

  // No attempt becomes Confirmed: that takes an entitlement.
  ghost predicate NoneConfirmed(d: Db, e: Db) {
    forall a :: a in e.attempts && e.attempts[a].state == Confirmed ==> a in d.attempts && d.attempts[a].state == Confirmed
  }

  lemma PayingMoves(d: Db, e: Db)
    requires KeepsAll(d, Paying) && PaymentMove(d, e) && NoneConfirmed(d, e)
    ensures KeepsAll(e, Paying)
  {
    forall rule: Rule | GroupOf(rule) == Paying
      ensures Keeps(e, rule)
    {
      assert Keeps(d, rule);
      match rule
      case EntitlementRule => EntitlementsMove(d, e);
      case ConfirmedRule =>
      case EventRule => EventsMove(d, e);
      case DeliveryRule =>
      case StorageRule =>
    }
  }

  lemma EntitlementsMove(d: Db, e: Db)
    requires EntitlementsHold(d) && PaymentMove(d, e)
    ensures EntitlementsHold(e)
  {
    forall q | q in e.entitlements
      ensures EntitlementHolds(e, q)
    {
      assert EntitlementHolds(d, q);
    }
  }

  lemma EventsMove(d: Db, e: Db)
    requires EventsEntitle(d) && PaymentMove(d, e)
    ensures EventsEntitle(e)
  {
  }

  lemma SpendingMoves(d: Db, e: Db)
    requires KeepsAll(d, Spending) && PaymentMove(d, e)
    requires forall a :: SubmittedIn(e, a) ==> SubmittedIn(d, a)
    ensures KeepsAll(e, Spending)
  {
    forall rule: Rule | GroupOf(rule) == Spending
      ensures Keeps(e, rule)
    {
      assert Keeps(d, rule);
      match rule
      case ConsumptionRule => assert forall a :: SubmittedIn(d, a) ==> SubmittedIn(e, a);
      case ReservationRule => assert forall a :: SubmittedIn(d, a) ==> SubmittedIn(e, a);
      case BudgetRule => BudgetsFrame(d, e);
      case FundingRule => FundingMoves(d, e);
    }
  }

  lemma FundingMoves(d: Db, e: Db)
    requires SubmissionsFunded(d) && PaymentMove(d, e)
    requires forall a :: SubmittedIn(e, a) ==> SubmittedIn(d, a)
    ensures SubmissionsFunded(e)
  {
    forall a | SubmittedIn(e, a)
      ensures Funded(e, a)
    {
      assert SubmittedIn(d, a) && Funded(d, a);
    }
  }

  // An attempt that neither crosses the boundary nor is confirmed moves safely.
  lemma MoveSafe(d: Db, a: Id, row: AttemptRow, state: QuoteState)
    requires Inv(d) && Legal(d, a, row, state)
    requires Submitted(row.state) ==> Submitted(d.attempts[a].state)
    requires row.state == Confirmed ==> d.attempts[a].state == Confirmed
    ensures Safe(d, Restate(d, a, row, state))
  {
    var e := Restate(d, a, row, state);
    RestateMoves(d, a, row, state);
    CoreMoves(d, a, row, state);
    PayingMoves(d, e);
    SpendingMoves(d, e);
    MoveExtends(d, e);
  }

  // ------------------------------------------------------ payment transactions

  lemma ExpireSafe(db: Db, q: Id)
    requires Inv(db)
    ensures Safe(db, After(db, Expire(db, q)))
  {
    var e := After(db, Expire(db, q));
    if e != db {
      QuoteExpiresSafe(db, e);
    } else {
      ExtendsReflexive(db);
    }
  }

  // Ready quotes may expire.
  lemma QuoteExpiresSafe(d: Db, e: Db)
    requires Inv(d)
    requires e == d.(quotes := e.quotes)
    requires forall q :: q in e.quotes <==> q in d.quotes
    requires forall q :: q in d.quotes ==>
               e.quotes[q] == d.quotes[q] || (d.quotes[q].state == Ready && e.quotes[q] == d.quotes[q].(state := Expired))
    ensures Safe(d, e)
  {
    assert PaymentMove(d, e);
    forall rule: Rule | GroupOf(rule) == Core
      ensures Keeps(e, rule)
    {
      assert Keeps(d, rule);
      match rule
      case RequestRule => ExpiryLinks(d, e);
      case QuoteRule => ExpiryLinks(d, e);
      case SlotRule => ExpiryLinks(d, e);
      case AttemptRule =>
      case OneActiveRule => OneActiveFrame(d, e);
      case LockstepRule => ExpiryLockstep(d, e);
      case HeldRule => ExpiryHeld(d, e);
      case AuthorizationRule =>
    }
    PayingMoves(d, e);
    SpendingMoves(d, e);
    MoveExtends(d, e);
  }

  lemma ExpiryLinks(d: Db, e: Db)
    requires KeepsAll(d, Core) && PaymentMove(d, e)
    ensures Keeps(e, RequestRule) && Keeps(e, QuoteRule) && Keeps(e, SlotRule)
  {
    assert Keeps(d, RequestRule) && Keeps(d, QuoteRule) && Keeps(d, SlotRule);
    LinksMove(d, e);
  }

  lemma ExpiryLockstep(d: Db, e: Db)
    requires InLockstep(d) && e.attempts == d.attempts
    requires forall q :: q in d.quotes ==> q in e.quotes && (d.quotes[q].state != Ready ==> e.quotes[q] == d.quotes[q])
    ensures InLockstep(e)
  {
    forall a | Active(e, a)
      ensures e.attempts[a].state != Received && e.attempts[a].quote in e.quotes
      ensures e.quotes[e.attempts[a].quote].state == StateFor(e.attempts[a].state)
    {
      assert Active(d, a);
    }
  }

  lemma ExpiryHeld(d: Db, e: Db)
    requires BusyQuotesHeld(d) && e.attempts == d.attempts
    requires forall q :: q in e.quotes ==> q in d.quotes && (e.quotes[q].state != Expired ==> e.quotes[q] == d.quotes[q])
    ensures BusyQuotesHeld(e)
  {
    forall q | q in e.quotes && e.quotes[q].state !in {Ready, Expired}
      ensures HasActive(e, q)
    {
      HolderKept(d, e, q);
    }
  }

  // A submitted attempt and its quote, in lockstep.
  ghost predicate Paired(db: Db, q: Id, a: Id) {
    && a in db.attempts && Submitted(db.attempts[a].state) && db.attempts[a].quote == q
    && q in db.quotes && db.quotes[q].state == StateFor(db.attempts[a].state)
  }

  lemma PairedIn(db: Db, q: Id, a: Id)
    requires Inv(db) && SubmittedIn(db, a) && db.attempts[a].quote == q
    ensures Paired(db, q, a)
  {
    assert Keeps(db, LockstepRule) && Active(db, a);
  }

  // What a paired call of `unknown` commits.
  lemma MarkUnknownCommits(db: Db, q: Id, a: Id, tx: Option<Id>)
    requires Paired(db, q, a)
    ensures MarkUnknown(db, q, a, tx).Ok?
    ensures var row := db.attempts[a];
            After(db, MarkUnknown(db, q, a, tx)) ==
            if row.state in {Submitting, Unknown}
            then Restate(db, a, row.(state := Unknown, tx := if row.tx.Some? then row.tx else tx, updated := db.now), PaymentUncertain)
            else db
  {
    var row := db.attempts[a];
    if row.state == Unknown {
      assert db.quotes == db.quotes[q := db.quotes[q].(state := PaymentUncertain)];
    }
  }

  lemma MarkUnknownSafe(db: Db, q: Id, a: Id, tx: Option<Id>)
    requires Inv(db) && SubmittedIn(db, a) && db.attempts[a].quote == q
    ensures Safe(db, After(db, MarkUnknown(db, q, a, tx)))
  {
    PairedIn(db, q, a);
    MarkUnknownCommits(db, q, a, tx);
    var row := db.attempts[a];
    if row.state in {Submitting, Unknown} {
      MoveSafe(db, a, row.(state := Unknown, tx := if row.tx.Some? then row.tx else tx, updated := db.now), PaymentUncertain);
    } else {
      ExtendsReflexive(db);
    }
  }

  // What a paired call of `manualReview` commits.
  lemma HoldForReviewCommits(db: Db, q: Id, a: Id)
    requires Paired(db, q, a)
    ensures HoldForReview(db, q, a).Ok?
    ensures var row := db.attempts[a];
            After(db, HoldForReview(db, q, a)) ==
            if row.state == InReview then db else Restate(db, a, row.(state := InReview, updated := db.now), ManualReview)
  {
    var row := db.attempts[a];
    if row.state == Submitting {
      var unknown := MoveAttempt(db, a, AttemptIs(db, a, Submitting), Unknown).value;
      assert unknown.attempts[a := row.(state := InReview, updated := db.now)] == db.attempts[a := row.(state := InReview, updated := db.now)];
    }
  }

  lemma HoldForReviewSafe(db: Db, q: Id, a: Id)
    requires Inv(db) && SubmittedIn(db, a) && db.attempts[a].quote == q
    ensures Safe(db, After(db, HoldForReview(db, q, a)))
  {
    PairedIn(db, q, a);
    HoldForReviewCommits(db, q, a);
    var row := db.attempts[a];
    if row.state == InReview {
      ExtendsReflexive(db);
    } else {
      MoveSafe(db, a, row.(state := InReview, updated := db.now), ManualReview);
    }
  }

  lemma RejectStaleSafe(db: Db, a: Id)
    requires Inv(db)
    ensures RejectStale(db, a).Ok?
    ensures Safe(db, RejectStale(db, a).value)
  {
    if a in db.attempts && db.attempts[a].state in {Received, Verified} {
      assert Keeps(db, LockstepRule) && Active(db, a);
      var row := db.attempts[a];
      var next := row.(state := Rejected, updated := db.now);
      var state := if db.quotes[row.quote].expires <= db.now then Expired else Ready;
      assert RejectStale(db, a).value == Restate(db, a, next, state);
      MoveSafe(db, a, next, state);
    } else {
      ExtendsReflexive(db);
    }
  }

  lemma {:induction false} RejectAllStaleSafe(db: Db, rows: seq<Id>)
    requires Inv(db)
    ensures RejectAllStale(db, rows).Ok?
    ensures Safe(db, RejectAllStale(db, rows).value)
    decreases |rows|
  {
    if rows == [] {
      ExtendsReflexive(db);
    } else {
      RejectStaleSafe(db, rows[0]);
      var next := RejectStale(db, rows[0]).value;
      RejectAllStaleSafe(next, rows[1..]);
      ExtendsTransitive(db, next, RejectAllStale(db, rows).value);
    }
  }

  lemma LeaseReconciliationSafe(db: Db, a: Id)
    requires Inv(db)
    ensures Safe(db, After(db, LeaseReconciliation(db, a)))
  {
    RescheduledSafe(db, a, After(db, LeaseReconciliation(db, a)));
  }

  lemma RescheduleSafe(db: Db, a: Id, count: nat)
    requires Inv(db)
    ensures Safe(db, After(db, Reschedule(db, a, count)))
  {
    RescheduledSafe(db, a, After(db, Reschedule(db, a, count)));
  }

  lemma RescheduledSafe(db: Db, a: Id, e: Db)
    requires Inv(db)
    requires e == db
             || (SubmittedIn(db, a) && a in e.attempts && e == db.(attempts := db.attempts[a := e.attempts[a]])
                 && e.attempts[a] == db.attempts[a].(nextReconcile := e.attempts[a].nextReconcile, reconciliations := e.attempts[a].reconciliations))
    ensures Safe(db, e)
  {
    if e == db {
      ExtendsReflexive(db);
    } else {
      assert Keeps(db, LockstepRule) && Active(db, a);
      var row := e.attempts[a];
      assert db.quotes == db.quotes[row.quote := db.quotes[row.quote].(state := StateFor(row.state))];
      assert e == Restate(db, a, row, StateFor(row.state));
      MoveSafe(db, a, row, StateFor(row.state));
    }
  }
}
