// The transactions up to the durable SUBMITTING boundary: beginning an attempt
// and crossing the boundary, which spends a grant in the same commit.

module SubmissionSteps {
  import opened Wrappers
  import opened LedgerRows
  import opened LedgerTransactions
  import opened LedgerInvariant
  import opened LedgerSteps

  // ------------------------------------------------------------- beginAttempt

  function Begun(db: Db, q: Id, id: Id, auth: Authorization): Db
    requires q in db.quotes
  {
    db.(attempts := db.attempts[id := AttemptRow(q, auth, Verified, None, db.now, 0, db.now)],
        quotes := db.quotes[q := db.quotes[q].(state := PaymentPending)])
  }

  lemma BeginAttemptCommits(db: Db, q: Id, id: Id, auth: Authorization, clock: Time)
    ensures var tx := BeginAttempt(db, q, id, auth, clock);
            tx.Ok? <==> q in db.quotes && db.quotes[q].state == Ready && clock < db.quotes[q].expires && !Conflicts(db, id, q, auth)
    ensures var tx := BeginAttempt(db, q, id, auth, clock);
            tx.Ok? ==> tx.value == (Begun(db, q, id, auth), id)
    ensures var tx := BeginAttempt(db, q, id, auth, clock);
            tx.Err? ==> tx.error in {MissingRow, Uncertain, QuoteExpired, AuthorizationReused}
  {
    if BeginAttempt(db, q, id, auth, clock).Ok? {
      var inserted := db.(attempts := db.attempts[id := AttemptRow(q, auth, Received, None, db.now, 0, db.now)]);
      assert inserted.attempts[id := AttemptRow(q, auth, Verified, None, db.now, 0, db.now)]
          == db.attempts[id := AttemptRow(q, auth, Verified, None, db.now, 0, db.now)];
    }
  }

  ghost predicate MayBegin(db: Db, q: Id, id: Id, auth: Authorization) {
    q in db.quotes && db.quotes[q].state == Ready && !Conflicts(db, id, q, auth)
  }

  lemma NoClash(db: Db, q: Id, id: Id, auth: Authorization, a: Id)
    requires MayBegin(db, q, id, auth) && a in db.attempts
    ensures a != id && !Clash(db.attempts[a], q, auth)
  {
  }

  lemma BegunAttempts(d: Db, q: Id, id: Id, auth: Authorization)
    requires AttemptsLinked(d) && AuthorizationsUnique(d) && OneActive(d) && MayBegin(d, q, id, auth)
    ensures var e := Begun(d, q, id, auth);
            AttemptsLinked(e) && AuthorizationsUnique(e) && OneActive(e)
  {
    var e := Begun(d, q, id, auth);
    forall a | a in d.attempts
      ensures a != id && !Clash(d.attempts[a], q, auth)
    {
      NoClash(d, q, id, auth, a);
    }
    forall a, b | Active(e, a) && Active(e, b) && e.attempts[a].quote == e.attempts[b].quote
      ensures a == b
    {
      assert a != id ==> Active(d, a);
      assert b != id ==> Active(d, b);
    }
  }

  lemma BegunLockstep(d: Db, q: Id, id: Id, auth: Authorization)
    requires InLockstep(d) && MayBegin(d, q, id, auth)
    ensures InLockstep(Begun(d, q, id, auth))
  {
    var e := Begun(d, q, id, auth);
    forall a | Active(e, a)
      ensures e.attempts[a].state != Received && e.attempts[a].quote in e.quotes
      ensures e.quotes[e.attempts[a].quote].state == StateFor(e.attempts[a].state)
    {
      if a != id {
        assert Active(d, a);
        NoClash(d, q, id, auth, a);
      }
    }
  }

  lemma BegunHeld(d: Db, q: Id, id: Id, auth: Authorization)
    requires BusyQuotesHeld(d) && MayBegin(d, q, id, auth)
    ensures BusyQuotesHeld(Begun(d, q, id, auth))
  {
    var e := Begun(d, q, id, auth);
    forall p | p in e.quotes && e.quotes[p].state !in {Ready, Expired}
      ensures HasActive(e, p)
    {
      if p == q {
        assert Active(e, id);
      } else {
        HolderKept(d, e, p);
      }
    }
  }

  lemma BeginAttemptSafe(db: Db, q: Id, id: Id, auth: Authorization, clock: Time)
    requires Inv(db)
    ensures Safe(db, After(db, BeginAttempt(db, q, id, auth, clock)))
  {
    BeginAttemptCommits(db, q, id, auth, clock);
    if BeginAttempt(db, q, id, auth, clock).Ok? {
      var e := Begun(db, q, id, auth);
      BegunMoves(db, q, id, auth);
      forall rule: Rule | GroupOf(rule) == Core
        ensures Keeps(e, rule)
      {
        assert Keeps(db, AttemptRule) && Keeps(db, OneActiveRule) && Keeps(db, AuthorizationRule);
        assert Keeps(db, rule);
        match rule
        case RequestRule => ExpiryLinks(db, e);
        case QuoteRule => ExpiryLinks(db, e);
        case SlotRule => ExpiryLinks(db, e);
        case AttemptRule => BegunAttempts(db, q, id, auth);
        case OneActiveRule => BegunAttempts(db, q, id, auth);
        case AuthorizationRule => BegunAttempts(db, q, id, auth);
        case LockstepRule => BegunLockstep(db, q, id, auth);
        case HeldRule => BegunHeld(db, q, id, auth);
      }
      PayingMoves(db, e);
      SpendingMoves(db, e);
      MoveExtends(db, e);
    } else {
      ExtendsReflexive(db);
    }
  }

  lemma BegunMoves(db: Db, q: Id, id: Id, auth: Authorization)
    requires MayBegin(db, q, id, auth)
    ensures var e := Begun(db, q, id, auth);
            PaymentMove(db, e) && NoneConfirmed(db, e) && forall a :: SubmittedIn(e, a) ==> SubmittedIn(db, a)
  {
  }

  // ----------------------------------------------------------- markSubmitting

  // The row of attempt `a` once it has crossed the boundary.
  function Crossed(db: Db, a: Id): AttemptRow
    requires a in db.attempts
  {
    db.attempts[a].(state := Submitting, updated := db.now, nextReconcile := db.now + FIRST_RECONCILE)
  }

  // The three ways a submission is paid for. `p` is the database once spent.
  ghost predicate ByMerchant(d: Db, p: Db, a: Id) {
    a in d.attempts && p == d && d.attempts[a].authorization.correlation.mode == Merchant
  }

  ghost predicate ByGrant(d: Db, p: Db, a: Id) {
    && a in d.attempts
    && var c := d.attempts[a].authorization.correlation;
       GrantNamed(c) && !c.signedGrant && ConsumeGrant(d, c.grant.digest, c.grantId.value, a) == Some(p)
  }

  ghost predicate ByReservation(d: Db, p: Db, a: Id, clock: Time) {
    && a in d.attempts
    && var c := d.attempts[a].authorization.correlation;
       GrantNamed(c) && c.signedGrant && ReserveGrant(d, c.grant.digest, a, c.from, clock) == Ok(Some(p))
  }

  // `p` with attempt `a` across the boundary.
  function Cross(p: Db, a: Id): Db
    requires a in p.attempts
  {
    p.(attempts := p.attempts[a := Crossed(p, a)])
  }

  lemma {:induction false} ReservationsAppend(rows: seq<Reservation>, row: Reservation, grant: Id)
    ensures ReservationsOf(rows + [row], grant) ==
            if row.grant == grant then ReservationsOf(rows, grant) + [row] else ReservationsOf(rows, grant)
  {
    assert (rows + [row])[..|rows|] == rows;
  }

  lemma TotalAppend(rows: seq<Reservation>, row: Reservation)
    ensures TotalReserved(rows + [row]) == TotalReserved(rows) + row.amount
  {
    assert (rows + [row])[..|rows|] == rows;
  }

  lemma BudgetsSpend(d: Db, p: Db, row: Reservation, clock: Time)
    requires BudgetsKept(d) && HasBudget(d, row.grant, clock)
    requires row.amount == AMOUNT && row.ordinal == |ReservationsOf(d.reservations, row.grant)| + 1
    requires p.reservations == d.reservations + [row] && p.authorities == d.authorities
    ensures BudgetsKept(p)
  {
    forall grant: Id
      ensures BudgetKept(p, grant)
    {
      assert BudgetKept(d, grant);
      ReservationsAppend(d.reservations, row, grant);
      TotalAppend(ReservationsOf(d.reservations, grant), row);
    }
  }

  lemma ReservationsSpend(d: Db, e: Db, row: Reservation)
    requires ReservationRowsHold(d) && !ReservationConflicts(d.reservations, row)
    requires row.grant in d.authorities && row.amount == AMOUNT && SubmittedIn(e, row.attempt)
    requires e.reservations == d.reservations + [row] && e.authorities == d.authorities
    requires forall a :: SubmittedIn(d, a) ==> SubmittedIn(e, a)
    ensures ReservationRowsHold(e)
  {
  }

  lemma FundingSpends(d: Db, e: Db, a: Id)
    requires SubmissionsFunded(d) && a in e.attempts && Funded(e, a)
    requires forall b :: b in e.attempts && b != a ==> b in d.attempts && e.attempts[b] == d.attempts[b]
    requires forall g :: g in d.consumptions ==> g in e.consumptions && e.consumptions[g] == d.consumptions[g]
    requires d.reservations <= e.reservations
    ensures SubmissionsFunded(e)
  {
    forall b | SubmittedIn(e, b)
      ensures Funded(e, b)
    {
      if b != a {
        assert SubmittedIn(d, b) && Funded(d, b);
      }
    }
  }

  lemma MerchantCrosses(d: Db, a: Id)
    requires KeepsAll(d, Spending) && ByMerchant(d, d, a) && d.attempts[a].state == Verified
    ensures KeepsAll(Cross(d, a), Spending)
  {
    var e := Cross(d, a);
    assert forall b :: SubmittedIn(d, b) ==> SubmittedIn(e, b);
    forall rule: Rule | GroupOf(rule) == Spending
      ensures Keeps(e, rule)
    {
      assert Keeps(d, rule);
      match rule
      case ConsumptionRule =>
      case ReservationRule =>
      case BudgetRule => BudgetsFrame(d, e);
      case FundingRule => FundingSpends(d, e, a);
    }
  }

  lemma GrantCrosses(d: Db, p: Db, a: Id)
    requires KeepsAll(d, Spending) && ByGrant(d, p, a) && d.attempts[a].state == Verified
    ensures KeepsAll(Cross(p, a), Spending)
  {
    var e := Cross(p, a);
    assert forall b :: SubmittedIn(d, b) ==> SubmittedIn(e, b);
    forall rule: Rule | GroupOf(rule) == Spending
      ensures Keeps(e, rule)
    {
      assert Keeps(d, rule);
      match rule
      case ConsumptionRule =>
      case ReservationRule =>
      case BudgetRule => BudgetsFrame(d, e);
      case FundingRule => FundingSpends(d, e, a);
    }
  }

  lemma ReservationCrosses(d: Db, p: Db, a: Id, clock: Time)
    requires KeepsAll(d, Spending) && ByReservation(d, p, a, clock) && d.attempts[a].state == Verified
    ensures KeepsAll(Cross(p, a), Spending)
  {
    var e := Cross(p, a);
    var row := p.reservations[|d.reservations|];
    assert p.reservations == d.reservations + [row] && row.attempt == a;
    assert forall b :: SubmittedIn(d, b) ==> SubmittedIn(e, b);
    forall rule: Rule | GroupOf(rule) == Spending
      ensures Keeps(e, rule)
    {
      assert Keeps(d, rule);
      match rule
      case ConsumptionRule =>
      case ReservationRule => ReservationsSpend(d, e, row);
      case BudgetRule => BudgetsSpend(d, e, row, clock);
      case FundingRule =>
        assert e.reservations[|d.reservations|].attempt == a;
        FundingSpends(d, e, a);
    }
  }

  // Crossing leaves the core and paying rules as a plain move does.
  lemma CrossCore(d: Db, p: Db, a: Id)
    requires Inv(d) && AttemptIs(d, a, Verified)
    requires p == d.(consumptions := p.consumptions, reservations := p.reservations)
    ensures KeepsAll(Cross(p, a), Core) && KeepsAll(Cross(p, a), Paying)
    ensures PaymentMove(p, Cross(p, a))
  {
    CoreFrame(d, p);
    PayingFrame(d, p);
    assert Keeps(d, LockstepRule) && Active(d, a);
    CrossIsMove(p, a);
    CoreMoves(p, a, Crossed(p, a), PaymentPending);
    PayingMoves(p, Cross(p, a));
  }

  lemma CrossIsMove(p: Db, a: Id)
    requires AttemptIs(p, a, Verified) && QuoteIs(p, p.attempts[a].quote, PaymentPending)
    ensures Legal(p, a, Crossed(p, a), PaymentPending)
    ensures Cross(p, a) == Restate(p, a, Crossed(p, a), PaymentPending)
    ensures PaymentMove(p, Cross(p, a)) && NoneConfirmed(p, Cross(p, a))
  {
    var q := p.attempts[a].quote;
    assert p.quotes == p.quotes[q := p.quotes[q].(state := PaymentPending)];
  }

  lemma CrossExtends(d: Db, p: Db, a: Id)
    requires p == d.(consumptions := p.consumptions, reservations := p.reservations)
    requires forall g :: g in d.consumptions ==> g in p.consumptions && p.consumptions[g] == d.consumptions[g]
    requires d.reservations <= p.reservations
    requires a in p.attempts && PaymentMove(p, Cross(p, a))
    ensures Extends(d, Cross(p, a))
  {
    MoveExtends(p, Cross(p, a));
  }

  function Refused(db: Db, a: Id): AttemptRow
    requires a in db.attempts
  {
    db.attempts[a].(state := Rejected, updated := db.now)
  }

  ghost predicate Crosses(d: Db, p: Db, a: Id) {
    ByMerchant(d, p, a) || ByGrant(d, p, a) || exists clock :: ByReservation(d, p, a, clock)
  }

  // The signed grant that the attempt names is known and its window is open.
  predicate WindowOpen(db: Db, a: Id, clock: Time)
    requires a in db.attempts
  {
    var grant := db.attempts[a].authorization.correlation.grant;
    && grant.Digest? && grant.digest in db.authorities
    && db.authorities[grant.digest].notBefore <= clock < db.authorities[grant.digest].expires
  }

  // Every outcome of markSubmitting: only a verified attempt crosses, only with
  // its submission paid for in the same commit, and no trigger ever fires.
  ghost predicate SubmissionOutcome(db: Db, a: Id, tx: Tx<Submission>)
    requires a in db.attempts && db.attempts[a].quote in db.quotes
  {
    match tx
    case Err(error) => error == CheckViolation
    case Ok((e, SubmitInvalid)) => e == db
    case Ok((e, SubmitExpired)) => db.attempts[a].state == Verified && e == Restate(db, a, Refused(db, a), Expired)
    case Ok((e, GrantConsumed)) => db.attempts[a].state == Verified && e == Restate(db, a, Refused(db, a), Ready)
    case Ok((e, Submit)) =>
      db.attempts[a].state == Verified
      && exists p :: Crosses(db, p, a) && p == db.(consumptions := p.consumptions, reservations := p.reservations) && e == Cross(p, a)
  }

  lemma MarkSubmittingCases(db: Db, q: Id, a: Id, merchant: Option<Id>, clock: Time)
    requires a in db.attempts && db.attempts[a].quote == q && q in db.quotes
    requires db.attempts[a].state == Verified ==> db.quotes[q].state == PaymentPending
    ensures SubmissionOutcome(db, a, MarkSubmitting(db, q, a, merchant, clock))
    ensures var tx := MarkSubmitting(db, q, a, merchant, clock);
            tx.Ok? && tx.value.1 == Submit ==>
              && clock < db.quotes[q].expires && clock < db.attempts[a].authorization.validUntil
              && (merchant.None? && db.attempts[a].authorization.correlation.signedGrant ==> WindowOpen(db, a, clock))
  {
    var row := db.attempts[a];
    var c := row.authorization.correlation;
    if row.state == Verified && clock < db.quotes[q].expires && clock < row.authorization.validUntil {
      if merchant.Some? {
        if MerchantTermsHold(db.quotes[q], row.authorization, merchant.value) {
          assert ByMerchant(db, db, a);
          CrossBoundaryIs(db, a);
        }
      } else if GrantNamed(c) {
        var spent := SpendGrant(db, a, clock);
        if spent.Ok? && spent.value.Some? {
          var p := spent.value.value;
          assert c.signedGrant ==> ByReservation(db, p, a, clock);
          assert !c.signedGrant ==> ByGrant(db, p, a);
          CrossBoundaryIs(p, a);
        }
      }
    }
  }

  lemma CrossBoundaryIs(p: Db, a: Id)
    requires AttemptIs(p, a, Verified)
    ensures CrossBoundary(p, a) == Ok((Cross(p, a), Submit))
  {
    var next := p.(attempts := p.attempts[a := p.attempts[a].(state := Submitting, updated := p.now)]);
    assert next.attempts[a := Crossed(p, a)] == p.attempts[a := Crossed(p, a)];
  }

  lemma SpendingCrosses(d: Db, p: Db, a: Id)
    requires KeepsAll(d, Spending) && Crosses(d, p, a) && d.attempts[a].state == Verified
    ensures KeepsAll(Cross(p, a), Spending)
  {
    if ByMerchant(d, p, a) {
      MerchantCrosses(d, a);
    } else if ByGrant(d, p, a) {
      GrantCrosses(d, p, a);
    } else {
      var clock :| ByReservation(d, p, a, clock);
      ReservationCrosses(d, p, a, clock);
    }
  }

  lemma SpendingOnlyGrows(d: Db, p: Db, a: Id)
    requires Crosses(d, p, a)
    ensures forall g :: g in d.consumptions ==> g in p.consumptions && p.consumptions[g] == d.consumptions[g]
    ensures d.reservations <= p.reservations
  {
    if !ByMerchant(d, p, a) && !ByGrant(d, p, a) {
      var clock :| ByReservation(d, p, a, clock);
      ReservationGrows(d, p, a, clock);
    }
  }

  lemma ReservationGrows(d: Db, p: Db, a: Id, clock: Time)
    requires ByReservation(d, p, a, clock)
    ensures p.consumptions == d.consumptions && d.reservations <= p.reservations
  {
  }

  lemma CrossSafe(d: Db, p: Db, a: Id)
    requires Inv(d) && Crosses(d, p, a) && d.attempts[a].state == Verified
    requires p == d.(consumptions := p.consumptions, reservations := p.reservations)
    ensures Safe(d, Cross(p, a))
  {
    CrossCore(d, p, a);
    SpendingCrosses(d, p, a);
    SpendingOnlyGrows(d, p, a);
    CrossExtends(d, p, a);
  }

  lemma OutcomeSafe(db: Db, a: Id, tx: Tx<Submission>)
    requires Inv(db) && a in db.attempts && db.attempts[a].quote in db.quotes && SubmissionOutcome(db, a, tx)
    requires db.attempts[a].state == Verified ==> db.quotes[db.attempts[a].quote].state == PaymentPending
    ensures Safe(db, After(db, tx))
    ensures tx.Ok? && tx.value.1 == Submit ==> AttemptIs(db, a, Verified) && SubmittedIn(tx.value.0, a)
  {
    match tx
    case Ok((e, SubmitExpired)) => MoveSafe(db, a, Refused(db, a), Expired);
    case Ok((e, GrantConsumed)) => MoveSafe(db, a, Refused(db, a), Ready);
    case Ok((e, Submit)) =>
      var p :| Crosses(db, p, a) && p == db.(consumptions := p.consumptions, reservations := p.reservations) && e == Cross(p, a);
      CrossSafe(db, p, a);
    case _ => ExtendsReflexive(db);
  }

  lemma MarkSubmittingSafe(db: Db, q: Id, a: Id, merchant: Option<Id>, clock: Time)
    requires Inv(db) && a in db.attempts && db.attempts[a].quote == q
    ensures Safe(db, After(db, MarkSubmitting(db, q, a, merchant, clock)))
    ensures var tx := MarkSubmitting(db, q, a, merchant, clock);
            tx.Ok? && tx.value.1 == Submit ==> AttemptIs(db, a, Verified) && SubmittedIn(tx.value.0, a)
  {
    assert Keeps(db, AttemptRule) && Keeps(db, LockstepRule);
    assert db.attempts[a].state == Verified ==> Active(db, a);
    MarkSubmittingCases(db, q, a, merchant, clock);
    OutcomeSafe(db, a, MarkSubmitting(db, q, a, merchant, clock));
  }
}
