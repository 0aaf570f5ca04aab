// What holds of every run of the gateway, from the empty ledger, whatever the
// interleaving, the stops, the clocks and the answers from outside.

module Guarantees {
  import opened Wrappers
  import opened LedgerRows
  import opened LedgerTransactions
  import opened LedgerInvariant
  import opened LedgerSteps
  import opened LedgerOutcomes
  import opened Protocol
  import opened SystemInvariant

  ghost predicate Reachable(w: World) {
    exists actions: seq<Action> :: w == Run(INITIAL, actions)
  }

  lemma ReachableHolds(w: World)
    requires Reachable(w)
    ensures WorldInv(w)
  {
    var actions :| w == Run(INITIAL, actions);
    ReachableInv(actions);
  }

  // ------------------------------------------------------------- one settlement

  // No two settle calls are for the same quote, the same request key, the same
  // signed authorization or the same merchant nonce.
  lemma SettleOnce(w: World, i: nat, j: nat)
    requires Reachable(w) && i < j < |w.settles|
    ensures w.settles[i] in w.db.attempts && w.settles[j] in w.db.attempts
    ensures var a, b := w.db.attempts[w.settles[i]], w.db.attempts[w.settles[j]];
            && a.quote != b.quote
            && a.authorization.identity != b.authorization.identity
            && !SameMerchantNonce(a.authorization.correlation, b.authorization.correlation)
  {
    ReachableHolds(w);
    var a, b := w.settles[i], w.settles[j];
    assert Keeps(w.db, OneActiveRule) && Keeps(w.db, AuthorizationRule);
    assert a in w.settles && b in w.settles && a != b;
    assert Active(w.db, a) && Active(w.db, b);
  }

  lemma SettleOncePerKey(w: World, i: nat, j: nat)
    requires Reachable(w) && i < j < |w.settles|
    ensures forall a, b :: a == w.settles[i] && b == w.settles[j] ==>
              && a in w.db.attempts && b in w.db.attempts
              && w.db.attempts[a].quote in w.db.quotes && w.db.attempts[b].quote in w.db.quotes
              && var r, s := w.db.quotes[w.db.attempts[a].quote].request, w.db.quotes[w.db.attempts[b].quote].request;
                 r in w.db.requests && s in w.db.requests
                 && (w.db.requests[r].scope, w.db.requests[r].key) != (w.db.requests[s].scope, w.db.requests[s].key)
  {
    ReachableHolds(w);
    SettleOnce(w, i, j);
    assert Keeps(w.db, AttemptRule) && Keeps(w.db, QuoteRule) && Keeps(w.db, RequestRule);
  }

  lemma SettlingSettlesNothing(w: World, action: Action)
    requires Settling(action)
    ensures SettlingStep(w, action).settles == w.settles
  {
  }

  lemma KeepingSettlesNothing(w: World, action: Action)
    requires Keeping(action)
    ensures KeepingStep(w, action).settles == w.settles
  {
  }

  lemma CrossingSettles(w: World, action: Action)
    requires Crossing(action) && CrossingStep(w, action).settles != w.settles
    ensures action.Settle? && action.p in w.procs && w.procs[action.p].Cleared?
    ensures CrossingStep(w, action).settles == w.settles + [w.procs[action.p].attempt]
  {
  }

  // Only the Settle step calls the facilitator, and the attempt's boundary is
  // in the ledger before it does.
  lemma BoundaryBeforeSettle(w: World, action: Action)
    requires Reachable(w) && Step(w, action).settles != w.settles
    ensures action.Settle? && action.p in w.procs && w.procs[action.p].Cleared?
    ensures var a := w.procs[action.p].attempt;
            Step(w, action).settles == w.settles + [a] && SubmittedIn(w.db, a) && a !in w.settles
  {
    ReachableHolds(w);
    if Settling(action) {
      SettlingSettlesNothing(w, action);
    } else if Keeping(action) {
      KeepingSettlesNothing(w, action);
    } else if Crossing(action) {
      CrossingSettles(w, action);
      assert Knows(w.db, w.procs[action.p]);
      assert Holds(w.procs[action.p]) == Some(w.procs[action.p].attempt);
    }
  }

  // ------------------------------------------------------------------ no way back

  lemma RunOn(first: seq<Action>, rest: seq<Action>)
    ensures Onward(Run(INITIAL, first), Run(INITIAL, first + rest))
  {
    ReachableInv(first);
    RunKeeps(Run(INITIAL, first), rest);
    RunConcat(INITIAL, first, rest);
  }

  // Once an attempt reached the boundary it stays beyond it, and its quote is
  // never offered for sale again.
  lemma NoWayBack(first: seq<Action>, rest: seq<Action>, a: Id)
    requires SubmittedIn(Run(INITIAL, first).db, a)
    ensures var db := Run(INITIAL, first + rest).db;
            SubmittedIn(db, a) && db.attempts[a].quote in db.quotes
            && db.quotes[db.attempts[a].quote].state !in {Ready, Expired}
  {
    RunOn(first, rest);
    var db := Run(INITIAL, first + rest).db;
    assert Keeps(db, LockstepRule) && Active(db, a);
  }

  // No attempt enters Verified again.
  lemma VerifiedOnce(first: seq<Action>, rest: seq<Action>, a: Id)
    requires var db := Run(INITIAL, first).db; a in db.attempts && db.attempts[a].state != Verified
    ensures !AttemptIs(Run(INITIAL, first + rest).db, a, Verified)
  {
    RunOn(first, rest);
  }

  // A late `unknown` never demotes a confirmed payment, or one under review.
  lemma LateUnknown(w: World, a: Id, tx: Option<Id>)
    requires Reachable(w) && (AttemptIs(w.db, a, Confirmed) || AttemptIs(w.db, a, InReview))
    ensures MarkUnknown(w.db, w.db.attempts[a].quote, a, tx) == Ok((w.db, ()))
  {
    ReachableHolds(w);
    PairedIn(w.db, w.db.attempts[a].quote, a);
    MarkUnknownCommits(w.db, w.db.attempts[a].quote, a, tx);
  }

  // A payment that was confirmed and then put under review stays there: the
  // trigger would let it be confirmed again, but no transaction does.
  lemma ReviewIsFinal(first: seq<Action>, rest: seq<Action>, a: Id)
    requires var db := Run(INITIAL, first).db;
             AttemptIs(db, a, InReview) && db.attempts[a].quote in db.entitlements
    ensures var db := Run(INITIAL, first + rest).db;
            AttemptIs(db, a, InReview) && QuoteIs(db, db.attempts[a].quote, ManualReview)
  {
    RunOn(first, rest);
    var db := Run(INITIAL, first + rest).db;
    assert Keeps(db, LockstepRule) && Active(db, a);
  }

  // --------------------------------------------------------------------- lockstep

  // A quote is for sale or expired exactly when no attempt on it is live, and
  // otherwise its one live attempt is in the matching state.
  lemma Lockstep(w: World, q: Id)
    requires Reachable(w) && q in w.db.quotes
    ensures w.db.quotes[q].state in {Ready, Expired} <==> !HasActive(w.db, q)
    ensures forall a :: Active(w.db, a) && w.db.attempts[a].quote == q ==>
              && w.db.quotes[q].state == StateFor(w.db.attempts[a].state)
              && (forall b :: Active(w.db, b) && w.db.attempts[b].quote == q ==> b == a)
  {
    ReachableHolds(w);
    assert Keeps(w.db, OneActiveRule) && Keeps(w.db, LockstepRule) && Keeps(w.db, HeldRule);
  }

  // A paid quote has an entitlement, and its receipt names the quote's own
  // payer, recipient, amount, report and report hash.
  lemma PaidMeansReceipt(w: World, q: Id)
    requires Reachable(w) && QuoteIs(w.db, q, Paid)
    ensures q in w.db.entitlements && w.db.quotes[q].report in w.db.artifacts
    ensures var r, row := w.db.entitlements[q].receipt, w.db.quotes[q];
            && r.quote == q && r.payer == row.payer && r.payTo == row.payTo && r.amount == AMOUNT
            && r.network == NETWORK && r.asset == ASSET
            && r.report == row.report && r.sha == w.db.artifacts[row.report].sha
            && AttemptIs(w.db, r.attempt, Confirmed) && w.db.attempts[r.attempt].tx == Some(r.tx)
  {
    ReachableHolds(w);
    assert Keeps(w.db, HeldRule) && Keeps(w.db, LockstepRule) && Keeps(w.db, ConfirmedRule) && Keeps(w.db, EntitlementRule);
    assert HasActive(w.db, q);
    var a :| Active(w.db, a) && w.db.attempts[a].quote == q;
    assert EntitlementHolds(w.db, q);
  }

  // Entitlements and their receipts are never withdrawn or rewritten.
  lemma EntitlementsStay(first: seq<Action>, rest: seq<Action>, q: Id)
    requires q in Run(INITIAL, first).db.entitlements
    ensures var e := Run(INITIAL, first + rest).db.entitlements;
            q in e && e[q] == Run(INITIAL, first).db.entitlements[q]
  {
    RunOn(first, rest);
  }

  // One transfer on the chain entitles at most one quote.
  lemma OneTransferOneQuote(w: World, p: Id, q: Id)
    requires Reachable(w) && p in w.db.entitlements && q in w.db.entitlements
    requires w.db.entitlements[p].receipt.tx == w.db.entitlements[q].receipt.tx
    requires w.db.entitlements[p].receipt.log == w.db.entitlements[q].receipt.log
    ensures p == q
  {
    ReachableHolds(w);
    assert Keeps(w.db, EntitlementRule);
    assert EntitlementHolds(w.db, p) && EntitlementHolds(w.db, q);
  }

  // ------------------------------------------------------------------------ grants

  ghost predicate UnderGrant(db: Db, a: Id, grant: Id, signed: bool) {
    && a in db.attempts
    && var c := db.attempts[a].authorization.correlation;
       c.mode != Merchant && c.grant == Digest(grant) && c.signedGrant == signed
  }

  // A v1 grant permits at most one settle, ever.
  lemma OneSettlePerGrant(w: World, grant: Id, i: nat, j: nat)
    requires Reachable(w) && i < |w.settles| && j < |w.settles|
    requires UnderGrant(w.db, w.settles[i], grant, false) && UnderGrant(w.db, w.settles[j], grant, false)
    ensures i == j
  {
    ReachableHolds(w);
    assert Keeps(w.db, FundingRule);
    var a, b := w.settles[i], w.settles[j];
    assert a in w.settles && b in w.settles;
    assert SubmittedIn(w.db, a) && SubmittedIn(w.db, b);
    assert Funded(w.db, a) && Funded(w.db, b);
  }

  function AttemptsOf(rows: seq<Reservation>): set<Id> {
    if rows == [] then {} else AttemptsOf(rows[..|rows| - 1]) + {rows[|rows| - 1].attempt}
  }

  lemma {:induction false} AttemptsCount(rows: seq<Reservation>)
    ensures |AttemptsOf(rows)| <= |rows|
  {
    if rows != [] {
      AttemptsCount(rows[..|rows| - 1]);
    }
  }

  lemma {:induction false} ReservedIn(rows: seq<Reservation>, i: nat, grant: Id)
    requires i < |rows| && rows[i].grant == grant
    ensures rows[i].attempt in AttemptsOf(ReservationsOf(rows, grant))
  {
    var front := rows[..|rows| - 1];
    var used := ReservationsOf(rows, grant);
    if i == |rows| - 1 {
      assert used[..|used| - 1] == ReservationsOf(front, grant);
    } else {
      ReservedIn(front, i, grant);
      assert front[i] == rows[i];
      if rows[|rows| - 1].grant == grant {
        assert used[..|used| - 1] == ReservationsOf(front, grant);
      }
    }
  }

  // Under a signed grant, reservations carry the ordinals 1..n, n and their sum
  // are within the grant, and at most n settles were made.
  lemma SignedGrantBudget(w: World, grant: Id, settled: set<Id>)
    requires Reachable(w) && grant in w.db.authorities
    requires forall a :: a in settled ==> a in w.settles && UnderGrant(w.db, a, grant, true)
    ensures var used := ReservationsOf(w.db.reservations, grant);
            && (forall i :: 0 <= i < |used| ==> used[i].ordinal == i + 1 && used[i].amount == AMOUNT && SubmittedIn(w.db, used[i].attempt))
            && |used| <= w.db.authorities[grant].maxSubmissions
            && TotalReserved(used) <= w.db.authorities[grant].maxTotal
            && |settled| <= |used|
  {
    ReachableHolds(w);
    var used := ReservationsOf(w.db.reservations, grant);
    assert Keeps(w.db, BudgetRule);
    assert BudgetKept(w.db, grant);
    assert Keeps(w.db, FundingRule);
    SettledReserved(w.db, grant, settled);
    assert Keeps(w.db, ReservationRule);
    RowsOfGrant(w.db.reservations, grant);
    forall i | 0 <= i < |used|
      ensures used[i].amount == AMOUNT && SubmittedIn(w.db, used[i].attempt)
    {
      assert used[i] in used;
    }
  }

  lemma SettledReserved(db: Db, grant: Id, settled: set<Id>)
    requires SubmissionsFunded(db)
    requires forall a :: a in settled ==> SubmittedIn(db, a) && UnderGrant(db, a, grant, true)
    ensures |settled| <= |ReservationsOf(db.reservations, grant)|
  {
    var used := ReservationsOf(db.reservations, grant);
    forall a | a in settled
      ensures a in AttemptsOf(used)
    {
      assert SubmittedIn(db, a) && Funded(db, a);
      var i :| 0 <= i < |db.reservations| && db.reservations[i].grant == grant && db.reservations[i].attempt == a;
      ReservedIn(db.reservations, i, grant);
    }
    AttemptsCount(used);
    Subset(settled, AttemptsOf(used));
  }

  lemma {:induction false} RowsOfGrant(rows: seq<Reservation>, grant: Id)
    ensures forall r :: r in ReservationsOf(rows, grant) <==> r in rows && r.grant == grant
  {
    if rows != [] {
      var front := rows[..|rows| - 1];
      RowsOfGrant(front, grant);
      assert rows == front + [rows[|rows| - 1]];
    }
  }

  // One settle per payer under a signed grant.
  lemma OnePerPayer(w: World, grant: Id, i: nat, j: nat)
    requires Reachable(w) && i < j < |w.db.reservations|
    requires w.db.reservations[i].grant == w.db.reservations[j].grant == grant
    ensures w.db.reservations[i].payer != w.db.reservations[j].payer
    ensures w.db.reservations[i].attempt != w.db.reservations[j].attempt
  {
    ReachableHolds(w);
    assert Keeps(w.db, ReservationRule);
  }

  ghost predicate NothingSpent(d: Db, e: Db) {
    e.reservations == d.reservations && e.consumptions == d.consumptions
  }

  lemma {:induction false} StaleSpendsNothing(db: Db, rows: seq<Id>)
    ensures RejectAllStale(db, rows).Ok? ==> NothingSpent(db, RejectAllStale(db, rows).value)
    decreases |rows|
  {
    if rows != [] && RejectStale(db, rows[0]).Ok? {
      StaleSpendsNothing(RejectStale(db, rows[0]).value, rows[1..]);
    }
  }

  lemma {:induction false} RemovalSpendsNothing(db: Db, rows: seq<Id>)
    ensures NothingSpent(db, RemoveUnpaid(db, rows))
    decreases |rows|
  {
    if rows != [] {
      RemovalSpendsNothing(if Removable(db, rows[0]) then SetStorage(db, db.quotes[rows[0]].report, Deleted) else db, rows[1..]);
    }
  }

  lemma UnattendedSpendsNothing(db: Db, action: Action)
    requires Unattended(action)
    ensures NothingSpent(db, UnattendedStep(db, action))
  {
    match action
    case SweepStale(rows) => StaleSpendsNothing(db, rows);
    case Cleanup(rows) => RemovalSpendsNothing(db, rows);
    case Create(id, scope, key, body, report, withinBudget) => CreateSpendsNothing(db, id, scope, key, body, report, withinBudget);
    case Activate(grant, authority) => ActivationSpendsNothing(db, grant, authority);
    case _ =>
  }

  lemma CreateSpendsNothing(db: Db, id: Id, scope: Id, key: Id, body: Body, report: Id, withinBudget: bool)
    ensures NothingSpent(db, After(db, CreateRequest(db, id, scope, key, body, report, withinBudget)))
  {
  }

  lemma ActivationSpendsNothing(db: Db, grant: Id, authority: Authority)
    ensures NothingSpent(db, After(db, ActivateGrant(db, grant, authority)))
  {
  }

  lemma UnknownSpendsNothing(db: Db, q: Id, a: Id, tx: Option<Id>)
    ensures NothingSpent(db, After(db, MarkUnknown(db, q, a, tx)))
  {
  }

  lemma AttemptMoveSpendsNothing(db: Db, a: Id, matched: bool, state: AttemptState)
    requires matched ==> a in db.attempts
    ensures var next := MoveAttempt(db, a, matched, state); next.Ok? ==> NothingSpent(db, next.value)
  {
  }

  lemma QuoteMoveSpendsNothing(db: Db, q: Id, matched: bool, state: QuoteState)
    requires matched ==> q in db.quotes
    ensures var next := MoveQuote(db, q, matched, state); next.Ok? ==> NothingSpent(db, next.value)
  {
  }

  lemma ReviewSpendsNothing(db: Db, q: Id, a: Id)
    ensures NothingSpent(db, After(db, HoldForReview(db, q, a)))
  {
    var tx := HoldForReview(db, q, a);
    if tx.Ok? {
      HoldSpendsNothing(db, a);
      var held := HoldAttempt(db, a).value;
      QuoteMoveSpendsNothing(held, q, QuoteIs(held, q, PaymentPending) || QuoteIs(held, q, PaymentUncertain) || QuoteIs(held, q, Paid), ManualReview);
    }
  }

  lemma HoldSpendsNothing(db: Db, a: Id)
    ensures HoldAttempt(db, a).Ok? ==> NothingSpent(db, HoldAttempt(db, a).value)
  {
    AttemptMoveSpendsNothing(db, a, AttemptIs(db, a, Submitting), Unknown);
  }

  lemma ConfirmSpendsNothing(db: Db, view: QuoteView, a: Id, r: Receipt)
    ensures NothingSpent(db, After(db, Confirm(db, view, a, r)))
  {
  }

  lemma SettlingSpendsNothing(w: World, action: Action)
    requires Settling(action)
    ensures NothingSpent(w.db, SettlingStep(w, action).db)
  {
    if action.p in w.procs {
      var c := w.procs[action.p];
      if c.Recording? || c.Recovered? || c.Catching? {
        UnknownSpendsNothing(w.db, c.view.id, c.attempt, c.tx);
      } else if c.Reviewing? {
        ReviewSpendsNothing(w.db, c.view.id, c.attempt);
      } else if c.Observed? {
        ConfirmSpendsNothing(w.db, c.view, c.attempt, c.receipt);
      }
    }
  }

  lemma CrossingSpendsNothing(w: World, action: Action)
    requires Crossing(action) && !(action.Submission? && action.p in w.procs && w.procs[action.p].Begun?)
    ensures NothingSpent(w.db, CrossingStep(w, action).db)
  {
  }

  lemma KeepingSpendsNothing(w: World, action: Action)
    requires Keeping(action)
    ensures NothingSpent(w.db, KeepingStep(w, action).db)
  {
  }

  lemma SpendsNothingElse(w: World, action: Action)
    requires !(action.Submission? && action.p in w.procs && w.procs[action.p].Begun?)
    ensures NothingSpent(w.db, Step(w, action).db)
  {
    if Unattended(action) {
      UnattendedSpendsNothing(w.db, action);
    } else if Crossing(action) {
      CrossingSpendsNothing(w, action);
    } else if Settling(action) {
      SettlingSpendsNothing(w, action);
    } else if Keeping(action) {
      KeepingSpendsNothing(w, action);
    }
  }

  // Exactly one row more, for this attempt under the grant it names, which
  // admitted it at that time.
  ghost predicate SpentFor(d: Db, e: Db, a: Id, clock: Time)
    requires a in d.attempts
  {
    var c := d.attempts[a].authorization.correlation;
    && c.mode == NoMode && c.grant.Digest? && c.grantId.Some?
    && if c.signedGrant then
         && e.consumptions == d.consumptions && c.from.Some?
         && RoomUnder(d, c.grant.digest, clock) && PayerIsNew(d, c.grant.digest, a, c.from.value)
         && e.reservations == d.reservations + [
              Reservation(c.grant.digest, |RowsOf(d, c.grant.digest)| + 1, a, c.from.value, 10_000_000_000_000_000)]
       else
         && e.reservations == d.reservations && c.grant.digest !in d.consumptions
         && e.consumptions == d.consumptions[c.grant.digest := Consumption(c.grantId.value, a)]
  }

  // A grant is spent in the very step that moves the process's own attempt
  // across, by one row for that attempt, while the grant's window is open.
  lemma SpentOnlyByCrossing(w: World, action: Action)
    requires Reachable(w)
    requires Step(w, action).db.reservations != w.db.reservations || Step(w, action).db.consumptions != w.db.consumptions
    ensures action.Submission? && action.p in w.procs && w.procs[action.p].Begun?
    ensures AttemptIs(w.db, w.procs[action.p].attempt, Verified)
    ensures AttemptIs(Step(w, action).db, w.procs[action.p].attempt, Submitting)
    ensures SpentFor(w.db, Step(w, action).db, w.procs[action.p].attempt, action.clock)
  {
    ReachableHolds(w);
    if !(action.Submission? && action.p in w.procs && w.procs[action.p].Begun?) {
      SpendsNothingElse(w, action);
      assert false;
    }
    SubmissionSpends(w, action);
  }

  lemma SubmissionSpends(w: World, action: Action)
    requires WorldInv(w) && action.Submission? && action.p in w.procs && w.procs[action.p].Begun?
    requires !NothingSpent(w.db, Step(w, action).db)
    ensures AttemptIs(w.db, w.procs[action.p].attempt, Verified)
    ensures AttemptIs(Step(w, action).db, w.procs[action.p].attempt, Submitting)
    ensures SpentFor(w.db, Step(w, action).db, w.procs[action.p].attempt, action.clock)
  {
    var c := w.procs[action.p];
    assert Knows(w.db, c);
    var merchant := if c.who.Operator? then None else action.merchant;
    var tx := MarkSubmitting(w.db, c.view.id, c.attempt, merchant, action.clock);
    SubmissionDecides(w.db, c.attempt, merchant, action.clock);
    DecidedSpends(w.db, After(w.db, tx), c.attempt, merchant, action.clock, ReplyOf(tx));
  }

  lemma DecidedSpends(d: Db, e: Db, a: Id, merchant: Option<Id>, clock: Time, r: Result<LedgerTransactions.Submission, Refusal>)
    requires a in d.attempts && d.attempts[a].quote in d.quotes && SubmissionDecided(d, e, a, merchant, clock, r)
    requires !NothingSpent(d, e)
    ensures AttemptIs(d, a, Verified) && AttemptIs(e, a, Submitting) && SpentFor(d, e, a, clock)
  {
    var c := d.attempts[a].authorization.correlation;
    OthersSpendNothing(d, a);
    assert d.attempts[a].state == Verified && c.grant.Digest?;
    if c.signedGrant {
      SignedSpendsOne(d, e, a, clock, r);
    } else {
      UnsignedSpendsOne(d, e, a, clock, r);
    }
  }

  lemma OthersSpendNothing(d: Db, a: Id)
    requires a in d.attempts && d.attempts[a].quote in d.quotes
    ensures NothingSpent(d, Sent(d, a))
    ensures NothingSpent(d, TurnedAway(d, a, Expired)) && NothingSpent(d, TurnedAway(d, a, Ready))
  {
  }

  lemma SignedSpendsOne(d: Db, e: Db, a: Id, clock: Time, r: Result<LedgerTransactions.Submission, Refusal>)
    requires a in d.attempts && d.attempts[a].quote in d.quotes && !NothingSpent(d, e)
    requires var c := d.attempts[a].authorization.correlation;
             c.mode == NoMode && c.grant.Digest? && c.grantId.Some? && c.signedGrant
    requires SignedDecided(d, e, a, clock, r)
    ensures AttemptIs(e, a, Submitting) && SpentFor(d, e, a, clock)
  {
    OthersSpendNothing(d, a);
  }

  lemma UnsignedSpendsOne(d: Db, e: Db, a: Id, clock: Time, r: Result<LedgerTransactions.Submission, Refusal>)
    requires a in d.attempts && d.attempts[a].quote in d.quotes && !NothingSpent(d, e)
    requires var c := d.attempts[a].authorization.correlation;
             c.mode == NoMode && c.grant.Digest? && c.grantId.Some? && !c.signedGrant
    requires UnsignedDecided(d, e, a, r)
    ensures AttemptIs(e, a, Submitting) && SpentFor(d, e, a, clock)
  {
    OthersSpendNothing(d, a);
  }

  // An operator's submission crosses only by spending a grant: it never settles
  // on a merchant's terms.
  lemma OperatorSpends(w: World, p: Id, merchant: Option<Id>, clock: Time)
    requires Reachable(w) && p in w.procs && w.procs[p].Begun? && w.procs[p].who.Operator?
    requires Step(w, Action.Submission(p, merchant, clock)).procs[p].Cleared?
    ensures SpentFor(w.db, Step(w, Action.Submission(p, merchant, clock)).db, w.procs[p].attempt, clock)
  {
    ReachableHolds(w);
    var c := w.procs[p];
    assert Knows(w.db, c);
    var tx := MarkSubmitting(w.db, c.view.id, c.attempt, None, clock);
    SubmissionDecides(w.db, c.attempt, None, clock);
    SubmitSpends(w.db, After(w.db, tx), c.attempt, clock);
  }

  lemma SubmitSpends(d: Db, e: Db, a: Id, clock: Time)
    requires a in d.attempts && d.attempts[a].quote in d.quotes && SubmissionDecided(d, e, a, None, clock, Ok(Submit))
    ensures SpentFor(d, e, a, clock)
  {
    var c := d.attempts[a].authorization.correlation;
    if c.signedGrant {
      assert SignedDecided(d, e, a, clock, Ok(Submit));
    } else {
      assert UnsignedDecided(d, e, a, Ok(Submit));
    }
  }

  // ------------------------------------------------------------------- delivery

  // A process that has read a paid report delivers it exactly while the report is
  // retained, which is for seven days from the confirmation.
  lemma DeliversWhileRetained(w: World, p: Id)
    requires Reachable(w) && p in w.procs && w.procs[p].Delivering? && QuoteIs(w.db, w.procs[p].view.id, Paid)
    ensures var q, after := w.procs[p].view.id, Step(w, Deliver(p)).db;
            && q in w.db.entitlements
            && w.db.entitlements[q].retainUntil == w.db.entitlements[q].receipt.confirmedAt + 7 * 24 * 60 * 60 * 1000
            && after.deliveries == if w.db.now < w.db.entitlements[q].retainUntil then w.db.deliveries + [q]
                                   else w.db.deliveries
  {
    ReachableHolds(w);
    assert Knows(w.db, w.procs[p]);
    RetentionDecides(w.db, w.procs[p].view.id);
  }

  // A process that has seen its quote paid goes on to the report exactly while,
  // by its own clock, the report is retained.
  lemma ReadsWhileRetained(w: World, p: Id, clock: Time)
    requires Reachable(w) && p in w.procs && w.procs[p].PaidSeen? && QuoteIs(w.db, w.procs[p].view.id, Paid)
    ensures var q, after := w.procs[p].view.id, Step(w, ReadEntitlement(p, clock));
            && q in w.db.entitlements
            && (after.procs[p].EntitlementRead? <==> clock < w.db.entitlements[q].retainUntil)
            && (after.procs[p].EntitlementRead? ==> after.procs[p].attempt == w.db.entitlements[q].attempt)
  {
    ReachableHolds(w);
    assert Knows(w.db, w.procs[p]);
    PaidHolds(w.db, w.procs[p].view.id);
  }

  lemma PaidHolds(db: Db, q: Id)
    requires Inv(db) && QuoteIs(db, q, Paid)
    ensures q in db.entitlements && EntitlementHolds(db, q) && AttemptIs(db, db.entitlements[q].attempt, Confirmed)
  {
    assert Keeps(db, HeldRule) && Keeps(db, LockstepRule) && Keeps(db, ConfirmedRule) && Keeps(db, EntitlementRule);
    assert HasActive(db, q);
    var a :| Active(db, a) && db.attempts[a].quote == q;
  }

  // The worker puts a payment under review after its tenth try without a receipt,
  // or when the answer asks for it, and the gateway never gives one up.
  lemma GivesUpWhen(view: QuoteView, a: Id, tx: Option<Id>, who: Who, answer: Answer)
    requires who.Worker? || who.Gateway?
    ensures AfterAnswer(view, a, tx, who, answer).Reviewing? <==>
              who.Worker? && !answer.Confirmation? && (who.count >= 10 || (answer.Failed? && answer.review))
    ensures AfterAnswer(view, a, tx, who, answer).Observed? <==> answer.Confirmation?
    ensures AfterAnswer(view, a, tx, who, answer).Catching? <==> who.Gateway? && !answer.Confirmation?
  {
  }
}
