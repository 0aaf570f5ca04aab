// The ledger as the object that runs its transactions: tables updated in place,
// statement by statement, and rolled back when a statement raises. A method that
// is a whole transaction keeps the ledger valid and undoes nothing, and says
// what its outcome means.

module LedgerStore {
  import opened Wrappers
  import opened LedgerRows
  import opened LedgerTransactions
  import opened LedgerInvariant
  import opened LedgerSteps
  import opened SubmissionSteps
  import opened ConfirmationSteps
  import opened RequestSteps
  import opened LedgerOutcomes

  class Ledger {
    var now: Time
    var requests: map<Id, RequestRow>
    var artifacts: map<Id, ArtifactRow>
    var quotes: map<Id, QuoteRow>
    var attempts: map<Id, AttemptRow>
    var consumptions: map<Id, Consumption>
    var authorities: map<Id, Authority>
    var reservations: seq<Reservation>
    var events: map<(Id, Id), Id>
    var entitlements: map<Id, Entitlement>
    var deliveries: seq<Id>
    const merchant: Option<Id>

    function Rows(): Db
      reads this
    {
      Db(now, requests, artifacts, quotes, attempts, consumptions, authorities, reservations, events, entitlements, deliveries)
    }

    // Every rule of the ledger holds.
    ghost predicate Valid()
      reads this
    {
      Inv(Rows())
    }

    constructor (merchant: Option<Id>)
      ensures Valid() && Rows() == EMPTY && this.merchant == merchant
    {
      now, requests, artifacts, quotes, attempts := 0, map[], map[], map[], map[];
      consumptions, authorities, reservations, events, entitlements, deliveries := map[], map[], [], map[], map[], [];
      this.merchant := merchant;
      new;
      EmptyInv();
    }

    // ROLLBACK
    method Restore(saved: Db)
      modifies this
      ensures Rows() == saved
    {
      now, requests, artifacts, quotes, attempts := saved.now, saved.requests, saved.artifacts, saved.quotes, saved.attempts;
      consumptions, authorities, reservations := saved.consumptions, saved.authorities, saved.reservations;
      events, entitlements, deliveries := saved.events, saved.entitlements, saved.deliveries;
    }

    method UpdateQuote(q: Id, state: QuoteState) returns (raised: Option<Refusal>)
      requires q in quotes
      modifies this`quotes
      ensures match SetQuote(old(Rows()), q, state)
              case Ok(db) => raised == None && Rows() == db
              case Err(error) => raised == Some(error) && Rows() == old(Rows())
    {
      if quotes[q].state != state && !QuoteMove(quotes[q].state, state) {
        return Some(TransitionTrigger);
      }
      quotes := quotes[q := quotes[q].(state := state)];
      return None;
    }

    method UpdateAttempt(a: Id, state: AttemptState, tx: Option<Id>) returns (raised: Option<Refusal>)
      requires a in attempts
      modifies this`attempts
      ensures match SetAttempt(old(Rows()), a, state, tx)
              case Ok(db) => raised == None && Rows() == db
              case Err(error) => raised == Some(error) && Rows() == old(Rows())
    {
      if attempts[a].state != state && !AttemptMove(attempts[a].state, state) {
        return Some(TransitionTrigger);
      }
      if attempts[a].tx.Some? && tx != attempts[a].tx {
        return Some(ImmutableTrigger);
      }
      attempts := attempts[a := attempts[a].(state := state, tx := tx, updated := now)];
      return None;
    }

    method UpdateQuoteWhere(q: Id, matched: bool, state: QuoteState) returns (raised: Option<Refusal>)
      requires matched ==> q in quotes
      modifies this`quotes
      ensures match MoveQuote(old(Rows()), q, matched, state)
              case Ok(db) => raised == None && Rows() == db
              case Err(error) => raised == Some(error) && Rows() == old(Rows())
    {
      raised := None;
      if matched {
        raised := UpdateQuote(q, state);
      }
    }

    method UpdateAttemptWhere(a: Id, matched: bool, state: AttemptState) returns (raised: Option<Refusal>)
      requires matched ==> a in attempts
      modifies this`attempts
      ensures match MoveAttempt(old(Rows()), a, matched, state)
              case Ok(db) => raised == None && Rows() == db
              case Err(error) => raised == Some(error) && Rows() == old(Rows())
    {
      raised := None;
      if matched {
        raised := UpdateAttempt(a, state, attempts[a].tx);
      }
    }

    method CreateRequest(id: Id, scope: Id, key: Id, body: Body, report: Id, withinBudget: bool)
      returns (r: Result<Id, Refusal>)
      requires Valid()
      modifies this`requests
      ensures Valid() && Safe(old(Rows()), Rows())
      ensures RequestAnswered(old(Rows()), Rows(), id, scope, key, body, report, withinBudget, r)
      ensures Rows() == After(old(Rows()), LedgerTransactions.CreateRequest(old(Rows()), id, scope, key, body, report, withinBudget))
      ensures match LedgerTransactions.CreateRequest(old(Rows()), id, scope, key, body, report, withinBudget)
              case Ok((_, created)) => r == Ok(created)
              case Err(error) => r == Err(error)
    {
      CreateRequestSafe(Rows(), id, scope, key, body, report, withinBudget);
      RequestAnswers(Rows(), id, scope, key, body, report, withinBudget);
      assert Keeps(Rows(), RequestRule);
      if known :| known in requests && requests[known].scope == scope && requests[known].key == key {
        return if requests[known].body != body then Err(IdempotencyConflict) else Ok(known);
      }
      if id in requests || exists other :: other in requests && requests[other].report == report {
        return Err(UniqueViolation);
      }
      if !withinBudget {
        return Err(RateLimited);
      }
      requests := requests[id := RequestRow(scope, key, body, report, Preparing, None, None)];
      return Ok(id);
    }

    // Fails the builds whose lease ran out.
    method FailRunOutLeases()
      modifies this`requests
      ensures Rows() == SweepLeases(old(Rows()))
    {
      requests := map r | r in requests ::
        if requests[r].state == Preparing && requests[r].lease.Some? && requests[r].lease.value < now
        then requests[r].(state := BuildFailed, lease := None) else requests[r];
    }

    // Then leases a request if a slot is free.
    method ClaimBuild(pick: Id) returns (claimed: Option<Id>)
      requires Valid()
      modifies this`requests
      ensures Valid() && Safe(old(Rows()), Rows())
      ensures BuildClaimed(old(Rows()), Rows(), pick, claimed)
      ensures LedgerTransactions.ClaimBuild(old(Rows()), pick) == Ok((Rows(), claimed))
    {
      ghost var before := Rows();
      claimed := SweepAndLease(pick);
      ClaimBuildSafe(before, pick);
      ClaimDecides(before, pick);
    }

    method SweepAndLease(pick: Id) returns (claimed: Option<Id>)
      modifies this`requests
      ensures LedgerTransactions.ClaimBuild(old(Rows()), pick) == Ok((Rows(), claimed))
    {
      FailRunOutLeases();
      claimed := LeaseBuild(pick);
    }

    method LeaseBuild(pick: Id) returns (claimed: Option<Id>)
      modifies this`requests
      ensures claimed.Some? <==> old(|LiveLeases(Rows())| < BUILD_SLOTS && pick in requests
                                     && requests[pick].state == Preparing && requests[pick].lease.None?)
      ensures claimed.Some? ==> claimed == Some(pick)
      ensures Rows() == if claimed.None? then old(Rows())
                        else old(Rows()).(requests := old(requests)[pick := old(requests)[pick].(lease := Some(now + LEASE))])
    {
      var live := set r | r in requests && requests[r].state == Preparing && requests[r].lease.Some? && requests[r].lease.value > now;
      assert live == LiveLeases(Rows());
      if |live| >= BUILD_SLOTS || pick !in requests || requests[pick].state != Preparing || requests[pick].lease.Some? {
        return None;
      }
      requests := requests[pick := requests[pick].(lease := Some(now + LEASE))];
      return Some(pick);
    }

    method RejectBuild(id: Id, rejected: bool)
      requires Valid()
      modifies this`requests
      ensures Valid() && Safe(old(Rows()), Rows())
      ensures BuildEnded(old(Rows()), Rows(), id, rejected)
      ensures LedgerTransactions.RejectBuild(old(Rows()), id, rejected) == Ok((Rows(), ()))
    {
      RejectBuildSafe(Rows(), id, rejected);
      if id in requests && requests[id].state == Preparing {
        requests := requests[id := requests[id].(state := if rejected then RequestRejected else BuildFailed, lease := None)];
      }
    }

    method Publish(id: Id, claimed: RequestRow, report: Id, sha: Id, quote: Id, payTo: Id, expires: Time)
      returns (r: Result<Id, Refusal>)
      requires Valid()
      modifies this`artifacts, this`quotes, this`requests
      ensures Valid() && Safe(old(Rows()), Rows())
      ensures QuotePublished(old(Rows()), Rows(), id, claimed, report, sha, quote, payTo, expires, r)
      ensures Rows() == After(old(Rows()), LedgerTransactions.Publish(old(Rows()), id, claimed, report, sha, quote, payTo, expires))
      ensures match LedgerTransactions.Publish(old(Rows()), id, claimed, report, sha, quote, payTo, expires)
              case Ok((_, published)) => r == Ok(published)
              case Err(error) => r == Err(error)
    {
      PublishSafe(Rows(), id, claimed, report, sha, quote, payTo, expires);
      PublishDecides(Rows(), id, claimed, report, sha, quote, payTo, expires);
      if id !in requests || requests[id].state != Preparing {
        return Err(InvalidState);
      }
      if report in artifacts || quote in quotes
         || exists q :: q in quotes && (quotes[q].request == id || quotes[q].report == report) {
        return Err(UniqueViolation);
      }
      if claimed.report != report || requests[id].report != report || requests[id].scope != claimed.scope {
        return Err(ForeignKeyViolation);
      }
      if claimed.body.payer == payTo || expires <= now {
        return Err(CheckViolation);
      }
      artifacts := artifacts[report := ArtifactRow(claimed.scope, sha, Available)];
      quotes := quotes[quote := QuoteRow(id, claimed.scope, report, payTo, claimed.body.payer, expires, Ready)];
      requests := requests[id := requests[id].(state := RequestReady, quote := Some(quote), lease := None)];
      return Ok(quote);
    }

    method Expire(q: Id) returns (raised: Option<Refusal>)
      requires Valid()
      modifies this`quotes
      ensures Valid() && Safe(old(Rows()), Rows()) && raised.None? && QuoteExpires(old(Rows()), Rows(), q)
      ensures Rows() == After(old(Rows()), LedgerTransactions.Expire(old(Rows()), q))
    {
      raised := UpdateQuoteWhere(q, q in quotes && quotes[q].state == Ready && quotes[q].expires <= now, Expired);
      ExpireSafe(old(Rows()), q);
    }

    // BEGIN, the statements, and COMMIT, or ROLLBACK when one raises or refuses.
    method BeginAttempt(q: Id, id: Id, auth: Authorization, clock: Time) returns (r: Result<Id, Refusal>)
      requires Valid()
      modifies this
      ensures Valid() && Safe(old(Rows()), Rows())
      ensures AttemptBegun(old(Rows()), Rows(), q, id, auth, clock, r)
      ensures Rows() == After(old(Rows()), LedgerTransactions.BeginAttempt(old(Rows()), q, id, auth, clock))
    {
      var saved := Rows();
      r := InsertAttempt(q, id, auth, clock);
      if r.Err? {
        Restore(saved);
      }
      BeginAttemptSafe(saved, q, id, auth, clock);
      BeginDecides(saved, q, id, auth, clock);
    }

    method InsertAttempt(q: Id, id: Id, auth: Authorization, clock: Time) returns (r: Result<Id, Refusal>)
      modifies this`attempts, this`quotes
      ensures match LedgerTransactions.BeginAttempt(old(Rows()), q, id, auth, clock)
              case Ok((db, a)) => r == Ok(a) && Rows() == db
              case Err(error) => r == Err(error)
    {
      if q !in quotes {
        return Err(MissingRow);
      }
      if quotes[q].state != Ready {
        return Err(Refusal.Uncertain);
      }
      if quotes[q].expires <= clock {
        return Err(QuoteExpired);
      }
      if Conflicts(Rows(), id, q, auth) {
        return Err(AuthorizationReused);
      }
      attempts := attempts[id := AttemptRow(q, auth, Received, None, now, 0, now)];
      var raised := UpdateAttempt(id, Verified, None);
      if raised.None? {
        raised := UpdateQuote(q, PaymentPending);
      }
      return if raised.Some? then Err(raised.value) else Ok(id);
    }

    // Spends the grant named by a verified attempt. `spent` is whether a row
    // was inserted.
    method Spend(a: Id, clock: Time) returns (r: Result<bool, Refusal>)
      requires Valid() && a in attempts && GrantNamed(attempts[a].authorization.correlation)
      modifies this`consumptions, this`reservations
      ensures GrantSpent(old(Rows()), Rows(), a, clock, r)
      ensures match SpendGrant(old(Rows()), a, clock)
              case Ok(Some(db)) => r == Ok(true) && Rows() == db
              case Ok(None) => r == Ok(false) && Rows() == old(Rows())
              case Err(error) => r == Err(error) && Rows() == old(Rows())
    {
      ghost var before := Rows();
      r := InsertSpending(a, clock);
      SpendMeans(before, a, clock);
    }

    method InsertSpending(a: Id, clock: Time) returns (r: Result<bool, Refusal>)
      requires a in attempts && GrantNamed(attempts[a].authorization.correlation)
      modifies this`consumptions, this`reservations
      ensures match SpendGrant(old(Rows()), a, clock)
              case Ok(Some(db)) => r == Ok(true) && Rows() == db
              case Ok(None) => r == Ok(false) && Rows() == old(Rows())
              case Err(error) => r == Err(error) && Rows() == old(Rows())
    {
      var c := attempts[a].authorization.correlation;
      var grant := c.grant.digest;
      if !c.signedGrant {
        if grant in consumptions
           || exists g :: g in consumptions && (consumptions[g].grantId == c.grantId.value || consumptions[g].attempt == a) {
          return Ok(false);
        }
        consumptions := consumptions[grant := Consumption(c.grantId.value, a)];
        return Ok(true);
      }
      if grant !in authorities || clock < authorities[grant].notBefore || authorities[grant].expires <= clock {
        return Ok(false);
      }
      var used := ReservationsOf(reservations, grant);
      var ordinal := |used| + 1;
      if ordinal > authorities[grant].maxSubmissions || TotalReserved(used) + AMOUNT > authorities[grant].maxTotal {
        return Ok(false);
      }
      if c.from.None? {
        return Err(CheckViolation);
      }
      var row := Reservation(grant, ordinal, a, c.from.value, AMOUNT);
      if ReservationConflicts(reservations, row) {
        return Ok(false);
      }
      reservations := reservations + [row];
      return Ok(true);
    }

    // The attempt names its quote. Only a verified, unexpired attempt crosses,
    // with its submission paid for in the same commit.
    method MarkSubmitting(a: Id, clock: Time) returns (r: Result<Submission, Refusal>)
      requires Valid() && a in attempts
      modifies this
      ensures Valid() && Safe(old(Rows()), Rows())
      ensures old(attempts)[a].quote in old(quotes)
      ensures SubmissionOutcome(old(Rows()), a, if r.Ok? then Ok((Rows(), r.value)) else Err(r.error))
      ensures SubmissionDecided(old(Rows()), Rows(), a, merchant, clock, r)
      ensures r.Err? ==> Rows() == old(Rows())
      ensures Rows() == After(old(Rows()), LedgerTransactions.MarkSubmitting(old(Rows()), old(attempts)[a].quote, a, merchant, clock))
    {
      var saved := Rows();
      var q := attempts[a].quote;
      assert Keeps(saved, AttemptRule) && Keeps(saved, LockstepRule);
      assert attempts[a].state == Verified ==> Active(saved, a);
      r := CrossOrRefuse(q, a, clock);
      if r.Err? {
        Restore(saved);
      }
      MarkSubmittingSafe(saved, q, a, merchant, clock);
      MarkSubmittingCases(saved, q, a, merchant, clock);
      SubmissionDecides(saved, a, merchant, clock);
    }

    method CrossOrRefuse(q: Id, a: Id, clock: Time) returns (r: Result<Submission, Refusal>)
      requires Valid() && q in quotes && a in attempts
      modifies this`attempts, this`quotes, this`consumptions, this`reservations
      ensures match LedgerTransactions.MarkSubmitting(old(Rows()), q, a, merchant, clock)
              case Ok((db, outcome)) => r == Ok(outcome) && Rows() == db
              case Err(error) => r == Err(error)
    {
      if attempts[a].state != Verified {
        return Ok(SubmitInvalid);
      }
      var raised: Option<Refusal>;
      if quotes[q].expires <= clock || attempts[a].authorization.validUntil <= clock {
        raised := UpdateAttempt(a, Rejected, attempts[a].tx);
        if raised.None? {
          raised := UpdateQuote(q, Expired);
        }
        return if raised.Some? then Err(raised.value) else Ok(SubmitExpired);
      }
      if merchant.Some? {
        if !MerchantTermsHold(quotes[q], attempts[a].authorization, merchant.value) {
          return Ok(SubmitInvalid);
        }
      } else {
        if !GrantNamed(attempts[a].authorization.correlation) {
          return Ok(SubmitInvalid);
        }
        var spent := Spend(a, clock);
        if spent.Err? {
          return Err(spent.error);
        }
        if !spent.value {
          raised := UpdateAttempt(a, Rejected, attempts[a].tx);
          if raised.None? && quotes[q].state == PaymentPending {
            raised := UpdateQuote(q, Ready);
          }
          return if raised.Some? then Err(raised.value) else Ok(GrantConsumed);
        }
      }
      raised := UpdateAttempt(a, Submitting, attempts[a].tx);
      if raised.Some? {
        return Err(raised.value);
      }
      attempts := attempts[a := attempts[a].(nextReconcile := now + FIRST_RECONCILE)];
      return Ok(Submit);
    }

    // For an attempt beyond the boundary it never raises and never demotes.
    method MarkUnknown(a: Id, tx: Option<Id>) returns (raised: Option<Refusal>)
      requires Valid() && a in attempts
      modifies this
      ensures old(SubmittedIn(Rows(), a)) ==>
                && Valid() && Safe(old(Rows()), Rows()) && raised.None?
                && old(attempts)[a].quote in old(quotes) && UnknownMarked(old(Rows()), Rows(), a, tx)
      ensures Rows() == After(old(Rows()), LedgerTransactions.MarkUnknown(old(Rows()), old(attempts)[a].quote, a, tx))
    {
      var saved := Rows();
      var q := attempts[a].quote;
      raised := MarkAttempt(a, tx);
      if raised.None? {
        raised := UpdateQuoteWhere(q, q in quotes && quotes[q].state == PaymentPending, PaymentUncertain);
      }
      if raised.Some? {
        Restore(saved);
      }
      if SubmittedIn(saved, a) {
        UnknownOutcome(saved, q, a, tx);
      }
    }

    method MarkAttempt(a: Id, tx: Option<Id>) returns (raised: Option<Refusal>)
      modifies this`attempts
      ensures match LedgerTransactions.MarkAttempt(old(Rows()), a, tx)
              case Ok(db) => raised == None && Rows() == db
              case Err(error) => raised == Some(error) && Rows() == old(Rows())
    {
      raised := None;
      if a in attempts && (attempts[a].state == Submitting || attempts[a].state == Unknown) {
        raised := UpdateAttempt(a, Unknown, if attempts[a].tx.Some? then attempts[a].tx else tx);
      }
    }

    // The caller's copy of the quote is as it reads it, the attempt beyond the
    // boundary.
    ghost predicate ConfirmedBy(view: QuoteView, a: Id)
      reads this
    {
      SubmittedIn(Rows(), a) && view.id in quotes && quotes[view.id].report in artifacts && view == ViewOf(Rows(), view.id)
    }

    // Confirms exactly a receipt that binds, is new and fits the attempt; nothing
    // but a refusal that names the reason can come of any other.
    method Confirm(view: QuoteView, a: Id, receipt: Receipt) returns (raised: Option<Refusal>)
      requires Valid()
      modifies this
      ensures old(ConfirmedBy(view, a)) ==>
                && Valid() && Safe(old(Rows()), Rows()) && raised != Some(TransitionTrigger)
                && (raised.None? <==> old(AttemptIs(Rows(), a, Confirmed) || MayConfirm(Rows(), view, a, receipt)))
                && ConfirmationAnswered(old(Rows()), Rows(), view, a, receipt, raised)
      ensures raised.None? && !old(AttemptIs(Rows(), a, Confirmed)) ==>
                && AttemptIs(Rows(), a, Confirmed) && QuoteIs(Rows(), view.id, Paid)
                && view.id in entitlements && entitlements[view.id].receipt == receipt
      ensures raised.Some? ==> Rows() == old(Rows())
      ensures Rows() == After(old(Rows()), LedgerTransactions.Confirm(old(Rows()), view, a, receipt))
    {
      var saved := Rows();
      raised := InsertConfirmation(view, a, receipt);
      if raised.Some? {
        Restore(saved);
      }
      ConfirmBinds(saved, view, a, receipt);
      if ConfirmedByIn(saved, view, a) {
        ConfirmOutcome(saved, view, a, receipt);
      }
    }

    method InsertConfirmation(view: QuoteView, a: Id, receipt: Receipt) returns (raised: Option<Refusal>)
      modifies this`events, this`entitlements, this`attempts, this`quotes
      ensures match LedgerTransactions.Confirm(old(Rows()), view, a, receipt)
              case Ok((db, _)) => raised == None && Rows() == db
              case Err(error) => raised == Some(error)
    {
      if a !in attempts {
        return Some(MissingRow);
      }
      if attempts[a].state == Confirmed {
        return None;
      }
      if attempts[a].state !in {Submitting, Unknown, InReview} {
        return Some(InvalidState);
      }
      if !ReceiptBinds(view, a, receipt) {
        return Some(PaymentRejected);
      }
      var event := (receipt.tx, receipt.log);
      if event in events || exists e :: e in events && events[e] == a {
        return Some(UniqueViolation);
      }
      if view.id in entitlements || exists q :: q in entitlements && entitlements[q].attempt == a {
        return Some(UniqueViolation);
      }
      if !KnownTerms(Rows(), view) || attempts[a].quote != view.id {
        return Some(ForeignKeyViolation);
      }
      events := events[event := a];
      entitlements := entitlements[view.id := Entitlement(a, view.report, view.scope, view.sha, receipt, receipt.confirmedAt + RETENTION)];
      raised := UpdateAttempt(a, Confirmed, Some(receipt.tx));
      if raised.None? {
        raised := UpdateQuote(view.id, Paid);
      }
    }

    method HoldAttempt(a: Id) returns (raised: Option<Refusal>)
      modifies this`attempts
      ensures match LedgerTransactions.HoldAttempt(old(Rows()), a)
              case Ok(db) => raised == None && Rows() == db
              case Err(error) => raised == Some(error)
    {
      raised := UpdateAttemptWhere(a, a in attempts && attempts[a].state == Submitting, Unknown);
      if raised.None? {
        raised := UpdateAttemptWhere(a, a in attempts && (attempts[a].state == Unknown || attempts[a].state == Confirmed), InReview);
      }
    }

    // For an attempt beyond the boundary and its own quote it never raises.
    method HoldForReview(q: Id, a: Id) returns (raised: Option<Refusal>)
      requires Valid()
      modifies this
      ensures old(SubmittedIn(Rows(), a) && attempts[a].quote == q) ==>
                && Valid() && Safe(old(Rows()), Rows()) && raised.None?
                && q in old(quotes) && PutUnderReview(old(Rows()), Rows(), a)
      ensures Rows() == After(old(Rows()), LedgerTransactions.HoldForReview(old(Rows()), q, a))
    {
      var saved := Rows();
      raised := HoldAttempt(a);
      if raised.None? {
        raised := UpdateQuoteWhere(
          q, q in quotes && (quotes[q].state == PaymentPending || quotes[q].state == PaymentUncertain || quotes[q].state == Paid), ManualReview);
      }
      if raised.Some? {
        Restore(saved);
      }
      if SubmittedIn(saved, a) && saved.attempts[a].quote == q {
        ReviewOutcome(saved, q, a);
      }
    }

    method RecordDelivery(view: QuoteView) returns (recorded: bool)
      requires Valid()
      modifies this`deliveries
      ensures Valid() && Safe(old(Rows()), Rows())
      ensures Delivered(old(Rows()), Rows(), view, recorded)
      ensures Rows() == After(old(Rows()), LedgerTransactions.RecordDelivery(old(Rows()), view))
      ensures recorded <==> LedgerTransactions.RecordDelivery(old(Rows()), view).Ok?
    {
      RecordDeliverySafe(Rows(), view);
      if view.id !in quotes || quotes[view.id].scope != view.scope || quotes[view.id].state != Paid || view.id !in entitlements {
        return false;
      }
      var e := entitlements[view.id];
      if e.report != view.report || e.sha != view.sha || e.scope != view.scope || e.retainUntil <= now
         || e.attempt !in attempts || attempts[e.attempt].state != Confirmed {
        return false;
      }
      deliveries := deliveries + [view.id];
      return true;
    }

    method LeaseReconciliation(a: Id) returns (leased: bool)
      requires Valid()
      modifies this`attempts
      ensures Valid() && Safe(old(Rows()), Rows())
      ensures Leased(old(Rows()), Rows(), a, leased)
      ensures LedgerTransactions.LeaseReconciliation(old(Rows()), a) == Ok((Rows(), leased))
    {
      ghost var before := Rows();
      leased := LeaseAttempt(a);
      LeaseReconciliationSafe(before, a);
    }

    method LeaseAttempt(a: Id) returns (leased: bool)
      modifies this`attempts
      ensures LedgerTransactions.LeaseReconciliation(old(Rows()), a) == Ok((Rows(), leased))
    {
      if a !in attempts || (attempts[a].state != Submitting && attempts[a].state != Unknown) || attempts[a].nextReconcile > now {
        return false;
      }
      attempts := attempts[a := attempts[a].(nextReconcile := now + RECONCILE_LEASE, reconciliations := attempts[a].reconciliations + 1)];
      return true;
    }

    // The sweep of attempts that never crossed the boundary, in one transaction.
    // No row of a stale selection makes it raise.
    method RecoverUnsubmitted(rows: seq<Id>) returns (raised: Option<Refusal>)
      requires Valid()
      modifies this
      ensures Valid() && Safe(old(Rows()), Rows()) && raised.None?
      ensures Recovered(old(Rows()), Rows(), rows)
      ensures LedgerTransactions.RecoverUnsubmitted(old(Rows()), rows) == Ok((Rows(), ()))
    {
      var saved := Rows();
      raised := RejectRows(rows);
      if raised.Some? {
        Restore(saved);
      }
      RejectAllStaleSafe(saved, rows);
      AllRecover(saved, rows);
    }

    method RejectRows(rows: seq<Id>) returns (raised: Option<Refusal>)
      modifies this`attempts, this`quotes
      ensures match RejectAllStale(old(Rows()), rows)
              case Ok(db) => raised == None && Rows() == db
              case Err(error) => raised.Some?
    {
      raised := None;
      var i := 0;
      while i < |rows| && raised.None?
        invariant 0 <= i <= |rows|
        invariant raised.None? ==> RejectAllStale(old(Rows()), rows) == RejectAllStale(Rows(), rows[i..])
        invariant raised.Some? ==> RejectAllStale(old(Rows()), rows).Err?
        decreases |rows| - i, raised.None?
      {
        assert rows[i..][0] == rows[i] && rows[i..][1..] == rows[i + 1..];
        raised := RejectOne(rows[i]);
        i := i + 1;
      }
    }

    method RejectOne(a: Id) returns (raised: Option<Refusal>)
      modifies this`attempts, this`quotes
      ensures match RejectStale(old(Rows()), a)
              case Ok(db) => raised == None && Rows() == db
              case Err(error) => raised == Some(error)
    {
      raised := None;
      if a in attempts && (attempts[a].state == Received || attempts[a].state == Verified) {
        raised := UpdateAttempt(a, Rejected, attempts[a].tx);
        var q := attempts[a].quote;
        if raised.None? && q in quotes && quotes[q].state == PaymentPending {
          raised := UpdateQuote(q, if quotes[q].expires <= now then Expired else Ready);
        }
      }
    }

    // Deletes the stored files of quotes that expired unpaid.
    method RemoveUnpaid(rows: seq<Id>)
      requires Valid()
      modifies this`artifacts
      ensures Valid() && Safe(old(Rows()), Rows())
      ensures forall q :: q in entitlements && q in quotes && quotes[q].report in old(artifacts) ==>
                quotes[q].report in artifacts && artifacts[quotes[q].report] == old(artifacts)[quotes[q].report]
      ensures Removed(old(Rows()), Rows(), rows)
      ensures Rows() == LedgerTransactions.RemoveUnpaid(old(Rows()), rows)
    {
      var i := 0;
      while i < |rows|
        invariant 0 <= i <= |rows|
        invariant LedgerTransactions.RemoveUnpaid(Rows(), rows[i..]) == LedgerTransactions.RemoveUnpaid(old(Rows()), rows)
      {
        assert rows[i..][0] == rows[i] && rows[i..][1..] == rows[i + 1..];
        if Removable(Rows(), rows[i]) {
          var report := quotes[rows[i]].report;
          artifacts := artifacts[report := artifacts[report].(storage := Deleted)];
        }
        i := i + 1;
      }
      assert rows[i..] == [];
      RemoveUnpaidSafe(old(Rows()), rows);
      RemoveUnpaidSpares(old(Rows()), rows);
      RemovalMeans(old(Rows()), rows);
    }
  }

  lemma UnknownOutcome(db: Db, q: Id, a: Id, tx: Option<Id>)
    requires Inv(db) && SubmittedIn(db, a) && db.attempts[a].quote == q
    ensures q in db.quotes && LedgerTransactions.MarkUnknown(db, q, a, tx).Ok?
    ensures var e := After(db, LedgerTransactions.MarkUnknown(db, q, a, tx)); Safe(db, e) && UnknownMarked(db, e, a, tx)
  {
    MarkUnknownSafe(db, q, a, tx);
    UnknownMarks(db, a, tx);
  }

  lemma ReviewOutcome(db: Db, q: Id, a: Id)
    requires Inv(db) && SubmittedIn(db, a) && db.attempts[a].quote == q
    ensures var e := After(db, LedgerTransactions.HoldForReview(db, q, a));
            q in db.quotes && Safe(db, e) && PutUnderReview(db, e, a)
    ensures LedgerTransactions.HoldForReview(db, q, a).Ok?
  {
    HoldForReviewSafe(db, q, a);
    ReviewHolds(db, a);
  }

  // What a confirmation that commits leaves behind.
  lemma ConfirmBinds(db: Db, view: QuoteView, a: Id, r: Receipt)
    ensures var tx := LedgerTransactions.Confirm(db, view, a, r);
            tx.Ok? && !AttemptIs(db, a, Confirmed) ==>
              && AttemptIs(tx.value.0, a, Confirmed) && QuoteIs(tx.value.0, view.id, Paid)
              && view.id in tx.value.0.entitlements && tx.value.0.entitlements[view.id].receipt == r
  {
  }

  lemma ConfirmOutcome(db: Db, view: QuoteView, a: Id, r: Receipt)
    requires Inv(db) && ConfirmedByIn(db, view, a)
    ensures Safe(db, After(db, LedgerTransactions.Confirm(db, view, a, r)))
    ensures LedgerTransactions.Confirm(db, view, a, r).Ok? <==> AttemptIs(db, a, Confirmed) || MayConfirm(db, view, a, r)
    ensures LedgerTransactions.Confirm(db, view, a, r) != Err(TransitionTrigger)
    ensures var tx := LedgerTransactions.Confirm(db, view, a, r);
            ConfirmationAnswered(db, After(db, tx), view, a, r, if tx.Ok? then None else Some(tx.error))
  {
    ConfirmAnswers(db, view, a, r);
    ConfirmSafe(db, view, a, r);
    PairedIn(db, db.attempts[a].quote, a);
    if db.attempts[a].state != Confirmed {
      ConfirmDecides(db, view, a, r);
    }
  }

  // Reports of entitled quotes keep their files.
  lemma {:induction false} RemoveUnpaidSpares(db: Db, rows: seq<Id>)
    requires Inv(db)
    ensures var e := LedgerTransactions.RemoveUnpaid(db, rows);
            forall q :: q in db.entitlements && q in db.quotes && db.quotes[q].report in db.artifacts ==>
              db.quotes[q].report in e.artifacts && e.artifacts[db.quotes[q].report] == db.artifacts[db.quotes[q].report]
    decreases |rows|
  {
    if rows != [] {
      var next := if Removable(db, rows[0]) then SetStorage(db, db.quotes[rows[0]].report, Deleted) else db;
      assert Keeps(db, QuoteRule);
      RemoveUnpaidSafe(db, rows[..1]);
      assert rows[..1] == [rows[0]] && [rows[0]][1..] == [];
      assert LedgerTransactions.RemoveUnpaid(db, rows[..1]) == next;
      RemoveUnpaidSpares(next, rows[1..]);
    }
  }
}
