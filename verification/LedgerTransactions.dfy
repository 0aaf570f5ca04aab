// The transactions of the payment ledger as functions of the database: what
// each one commits, or the refusal that rolls it back. Every transaction on a
// payment takes the quote row lock first, so each is one step.
// `clock` is the caller's own clock; `db.now` is the database clock.

module LedgerTransactions {
  import opened Wrappers
  import opened LedgerRows

  // A refused transaction leaves the database as it was.
  function After<T>(db: Db, tx: Tx<T>): Db {
    match tx
    case Ok((next, _)) => next
    case Err(_) => db
  }

  // ---------------------------------------------------------------- requests

  ghost function CreateRequest(db: Db, id: Id, scope: Id, key: Id, body: Body, report: Id, withinBudget: bool): Tx<Id> {
    if r :| r in db.requests && db.requests[r].scope == scope && db.requests[r].key == key then
      if db.requests[r].body != body then Err(IdempotencyConflict) else Ok((db, r))
    else if id in db.requests || exists r :: r in db.requests && db.requests[r].report == report then Err(UniqueViolation)
    else if !withinBudget then Err(RateLimited)
    else Ok((db.(requests := db.requests[id := RequestRow(scope, key, body, report, Preparing, None, None)]), id))
  }

  // Leases that ran out fail their builds.
  function SweepLeases(db: Db): Db {
    db.(requests := map r | r in db.requests ::
      var row := db.requests[r];
      if row.state == Preparing && row.lease.Some? && row.lease.value < db.now
      then row.(state := BuildFailed, lease := None) else row)
  }

  // `pick` is the oldest unleased request that no other worker has locked.
  function ClaimBuild(db: Db, pick: Id): Tx<Option<Id>> {
    var swept := SweepLeases(db);
    if |LiveLeases(swept)| >= BUILD_SLOTS then Ok((swept, None))
    else if pick in swept.requests && swept.requests[pick].state == Preparing && swept.requests[pick].lease.None? then
      Ok((swept.(requests := swept.requests[pick := swept.requests[pick].(lease := Some(db.now + LEASE))]), Some(pick)))
    else Ok((swept, None))
  }

  function RejectBuild(db: Db, request: Id, rejected: bool): Tx<()> {
    if request in db.requests && db.requests[request].state == Preparing then
      var row := db.requests[request].(state := if rejected then RequestRejected else BuildFailed, lease := None);
      Ok((db.(requests := db.requests[request := row]), ()))
    else Ok((db, ()))
  }

  // `claimed` is the worker's copy of the request row.
  function Publish(db: Db, id: Id, claimed: RequestRow, report: Id, sha: Id, quote: Id, payTo: Id, expires: Time): Tx<Id> {
    if id !in db.requests || db.requests[id].state != Preparing then Err(InvalidState)
    else if report in db.artifacts || quote in db.quotes
            || (exists q :: q in db.quotes && (db.quotes[q].request == id || db.quotes[q].report == report)) then Err(UniqueViolation)
    else if claimed.report != report || db.requests[id].report != report || db.requests[id].scope != claimed.scope then Err(ForeignKeyViolation)
    else if claimed.body.payer == payTo || expires <= db.now then Err(CheckViolation)
    else
      var row := QuoteRow(id, claimed.scope, report, payTo, claimed.body.payer, expires, Ready);
      Ok((db.(artifacts := db.artifacts[report := ArtifactRow(claimed.scope, sha, Available)],
              quotes := db.quotes[quote := row],
              requests := db.requests[id := db.requests[id].(state := RequestReady, quote := Some(quote), lease := None)]),
          quote))
  }

  // ---------------------------------------------------------------- payments

  function Expire(db: Db, q: Id): Tx<()> {
    if q in db.quotes && db.quotes[q].state == Ready && db.quotes[q].expires <= db.now then
      var next :- SetQuote(db, q, Expired);
      Ok((next, ()))
    else Ok((db, ()))
  }

  // The unique indexes on payment_attempts.
  predicate Conflicts(db: Db, id: Id, q: Id, auth: Authorization) {
    id in db.attempts || exists a :: a in db.attempts && Clash(db.attempts[a], q, auth)
  }

  predicate Clash(row: AttemptRow, q: Id, auth: Authorization) {
    || row.authorization.identity == auth.identity
    || (row.quote == q && row.state != Rejected)
    || SameMerchantNonce(row.authorization.correlation, auth.correlation)
  }

  predicate SameMerchantNonce(c: Correlation, d: Correlation) {
    && c.mode == Merchant && d.mode == Merchant
    && c.network.Some? && c.network == d.network
    && c.from.Some? && c.from == d.from
    && c.nonce.Some? && c.nonce == d.nonce
  }

  function BeginAttempt(db: Db, q: Id, id: Id, auth: Authorization, clock: Time): Tx<Id> {
    if q !in db.quotes then Err(MissingRow)
    else if db.quotes[q].state != Ready then Err(Uncertain)
    else if db.quotes[q].expires <= clock then Err(QuoteExpired)
    else if Conflicts(db, id, q, auth) then Err(AuthorizationReused)
    else
      var inserted := db.(attempts := db.attempts[id := AttemptRow(q, auth, Received, None, db.now, 0, db.now)]);
      var verified :- SetAttempt(inserted, id, Verified, None);
      var pending :- SetQuote(verified, q, PaymentPending);
      Ok((pending, id))
  }

  datatype Submission = Submit | SubmitExpired | GrantConsumed | SubmitInvalid

  predicate MerchantTermsHold(row: QuoteRow, auth: Authorization, payTo: Id) {
    var c := auth.correlation;
    && auth.permit2 && row.state == PaymentPending && c.mode == Merchant && c.grant == Absent
    && row.payTo == payTo
    && c.network == Some(NETWORK) && c.asset == Some(ASSET) && c.amount == Some(AMOUNT)
    && c.from == Some(row.payer) && c.to == Some(row.payTo)
    && c.nonce.Some? && c.decimalNonce
  }

  predicate GrantNamed(c: Correlation) {
    c.mode == NoMode && c.grant.Digest? && c.grantId.Some?
  }

  // INSERT INTO live_grant_consumptions ... ON CONFLICT DO NOTHING
  function ConsumeGrant(db: Db, grant: Id, grantId: Id, attempt: Id): Option<Db> {
    if grant in db.consumptions
       || (exists g :: g in db.consumptions && (db.consumptions[g].grantId == grantId || db.consumptions[g].attempt == attempt))
    then None
    else Some(db.(consumptions := db.consumptions[grant := Consumption(grantId, attempt)]))
  }

  // The budget of a signed grant has room for one more submission.
  predicate HasBudget(db: Db, grant: Id, clock: Time) {
    && grant in db.authorities
    && var authority := db.authorities[grant];
       var used := ReservationsOf(db.reservations, grant);
       && authority.notBefore <= clock < authority.expires
       && |used| + 1 <= authority.maxSubmissions
       && TotalReserved(used) + AMOUNT <= authority.maxTotal
  }

  predicate ReservationConflicts(rows: seq<Reservation>, row: Reservation) {
    exists i :: 0 <= i < |rows| &&
      (rows[i].attempt == row.attempt ||
       (rows[i].grant == row.grant && (rows[i].ordinal == row.ordinal || rows[i].payer == row.payer)))
  }

  // A reservation whose payer is missing breaks a CHECK and raises; one that
  // conflicts inserts nothing.
  function ReserveGrant(db: Db, grant: Id, attempt: Id, payer: Option<Id>, clock: Time): Result<Option<Db>, Refusal> {
    if !HasBudget(db, grant, clock) then Ok(None)
    else if payer.None? then Err(CheckViolation)
    else
      var row := Reservation(grant, |ReservationsOf(db.reservations, grant)| + 1, attempt, payer.value, AMOUNT);
      if ReservationConflicts(db.reservations, row) then Ok(None)
      else Ok(Some(db.(reservations := db.reservations + [row])))
  }

  function SpendGrant(db: Db, a: Id, clock: Time): Result<Option<Db>, Refusal>
    requires a in db.attempts && GrantNamed(db.attempts[a].authorization.correlation)
  {
    var c := db.attempts[a].authorization.correlation;
    if c.signedGrant then ReserveGrant(db, c.grant.digest, a, c.from, clock)
    else Ok(ConsumeGrant(db, c.grant.digest, c.grantId.value, a))
  }

  function CrossBoundary(db: Db, a: Id): Tx<Submission>
    requires a in db.attempts
  {
    var next :- SetAttempt(db, a, Submitting, db.attempts[a].tx);
    Ok((next.(attempts := next.attempts[a := next.attempts[a].(nextReconcile := db.now + FIRST_RECONCILE)]), Submit))
  }

  // `merchant` is the gateway's own pay-to address; None in grant mode.
  function MarkSubmitting(db: Db, q: Id, a: Id, merchant: Option<Id>, clock: Time): Tx<Submission> {
    if q !in db.quotes || a !in db.attempts then Err(MissingRow)
    else
      var row := db.attempts[a];
      if row.state != Verified then Ok((db, SubmitInvalid))
      else if db.quotes[q].expires <= clock || row.authorization.validUntil <= clock then
        var rejected :- SetAttempt(db, a, Rejected, row.tx);
        var expired :- SetQuote(rejected, q, Expired);
        Ok((expired, SubmitExpired))
      else if merchant.Some? then
        if MerchantTermsHold(db.quotes[q], row.authorization, merchant.value) then CrossBoundary(db, a)
        else Ok((db, SubmitInvalid))
      else if !GrantNamed(row.authorization.correlation) then Ok((db, SubmitInvalid))
      else
        var spent :- SpendGrant(db, a, clock);
        match spent
        case Some(paid) => CrossBoundary(paid, a)
        case None =>
          var rejected :- SetAttempt(db, a, Rejected, row.tx);
          var ready :- MoveQuote(rejected, q, QuoteIs(rejected, q, PaymentPending), Ready);
          Ok((ready, GrantConsumed))
  }

  // The first known hash is kept.
  function MarkAttempt(db: Db, a: Id, tx: Option<Id>): Result<Db, Refusal> {
    if AttemptIs(db, a, Submitting) || AttemptIs(db, a, Unknown) then
      SetAttempt(db, a, Unknown, if db.attempts[a].tx.Some? then db.attempts[a].tx else tx)
    else Ok(db)
  }

  function MarkUnknown(db: Db, q: Id, a: Id, tx: Option<Id>): Tx<()> {
    var marked :- MarkAttempt(db, a, tx);
    var uncertain :- MoveQuote(marked, q, QuoteIs(marked, q, PaymentPending), PaymentUncertain);
    Ok((uncertain, ()))
  }

  predicate ReceiptBinds(view: QuoteView, a: Id, r: Receipt) {
    && r.quote == view.id && r.report == view.report && r.sha == view.sha && r.attempt == a
    && r.network == NETWORK && r.asset == ASSET && r.amount == AMOUNT
    && r.payer == view.payer && r.payTo == view.payTo
  }

  predicate KnownTerms(db: Db, view: QuoteView) {
    && view.id in db.quotes && view.report in db.artifacts
    && db.quotes[view.id].report == view.report && db.quotes[view.id].scope == view.scope
    && db.artifacts[view.report].sha == view.sha
  }

  function Confirm(db: Db, view: QuoteView, a: Id, r: Receipt): Tx<()> {
    if a !in db.attempts then Err(MissingRow)
    else if db.attempts[a].state == Confirmed then Ok((db, ()))
    else if db.attempts[a].state !in {Submitting, Unknown, InReview} then Err(InvalidState)
    else if !ReceiptBinds(view, a, r) then Err(PaymentRejected)
    else if (r.tx, r.log) in db.events || (exists e :: e in db.events && db.events[e] == a) then Err(UniqueViolation)
    else if view.id in db.entitlements || (exists q :: q in db.entitlements && db.entitlements[q].attempt == a) then Err(UniqueViolation)
    else if !KnownTerms(db, view) || db.attempts[a].quote != view.id then Err(ForeignKeyViolation)
    else Pay(db, view, a, r)
  }

  // The confirming writes: chain event, entitlement, attempt and quote.
  function Pay(db: Db, view: QuoteView, a: Id, r: Receipt): Tx<()>
    requires a in db.attempts && view.id in db.quotes
  {
    var bound := db.(
      events := db.events[(r.tx, r.log) := a],
      entitlements := db.entitlements[view.id := Entitlement(a, view.report, view.scope, view.sha, r, r.confirmedAt + RETENTION)]);
    var confirmed :- SetAttempt(bound, a, Confirmed, Some(r.tx));
    var paid :- SetQuote(confirmed, view.id, Paid);
    Ok((paid, ()))
  }

  function HoldAttempt(db: Db, a: Id): Result<Db, Refusal> {
    var unknown :- MoveAttempt(db, a, AttemptIs(db, a, Submitting), Unknown);
    MoveAttempt(unknown, a, AttemptIs(unknown, a, Unknown) || AttemptIs(unknown, a, Confirmed), InReview)
  }

  function HoldForReview(db: Db, q: Id, a: Id): Tx<()> {
    var held :- HoldAttempt(db, a);
    var quote :- MoveQuote(held, q, QuoteIs(held, q, PaymentPending) || QuoteIs(held, q, PaymentUncertain) || QuoteIs(held, q, Paid), ManualReview);
    Ok((quote, ()))
  }

  function RecordDelivery(db: Db, view: QuoteView): Tx<()> {
    if view.id !in db.quotes || db.quotes[view.id].scope != view.scope || db.quotes[view.id].state != Paid then Err(Uncertain)
    else if view.id !in db.entitlements then Err(Uncertain)
    else
      var e := db.entitlements[view.id];
      if e.report != view.report || e.sha != view.sha || e.scope != view.scope || e.retainUntil <= db.now
         || e.attempt !in db.attempts || db.attempts[e.attempt].state != Confirmed then Err(Uncertain)
      else Ok((db.(deliveries := db.deliveries + [view.id]), ()))
  }

  // CHECK constraints of live_grant_authorities; the same digest again is kept
  // only when it names the same policy.
  function ActivateGrant(db: Db, grant: Id, authority: Authority): Tx<()> {
    if grant in db.authorities then
      if db.authorities[grant].policy == authority.policy then Ok((db, ())) else Err(CheckViolation)
    else if exists g :: g in db.authorities && (db.authorities[g].grantId == authority.grantId || db.authorities[g].policy == authority.policy)
    then Err(UniqueViolation)
    else if authority.amountPer == 0 || !(1 <= authority.maxSubmissions <= 1000)
            || authority.maxTotal != authority.amountPer * authority.maxSubmissions || authority.expires <= authority.notBefore
    then Err(CheckViolation)
    else Ok((db.(authorities := db.authorities[grant := authority]), ()))
  }

  // ----------------------------------------------------------------- workers

  // Leases one uncertain attempt for a read-only reconciliation.
  function LeaseReconciliation(db: Db, a: Id): Tx<bool> {
    if (AttemptIs(db, a, Submitting) || AttemptIs(db, a, Unknown)) && db.attempts[a].nextReconcile <= db.now then
      var row := db.attempts[a];
      Ok((db.(attempts := db.attempts[a := row.(nextReconcile := db.now + RECONCILE_LEASE, reconciliations := row.reconciliations + 1)]), true))
    else Ok((db, false))
  }

  function Backoff(count: nat): int {
    var seconds := 30 * Power2(if count < 7 then count else 7);
    SECOND * if seconds < 3600 then seconds else 3600
  }

  function Power2(n: nat): (p: nat)
    ensures p >= 1
  {
    if n == 0 then 1 else 2 * Power2(n - 1)
  }

  function Reschedule(db: Db, a: Id, count: nat): Tx<()> {
    if a in db.attempts && db.attempts[a].state == Unknown then
      Ok((db.(attempts := db.attempts[a := db.attempts[a].(nextReconcile := db.now + Backoff(count))]), ()))
    else Ok((db, ()))
  }

  // One row of the sweep of attempts that never crossed the submit boundary.
  // The row was selected from a snapshot; the guarded UPDATE rechecks it.
  function RejectStale(db: Db, a: Id): Result<Db, Refusal> {
    if AttemptIs(db, a, Received) || AttemptIs(db, a, Verified) then
      var rejected :- SetAttempt(db, a, Rejected, db.attempts[a].tx);
      var q := db.attempts[a].quote;
      MoveQuote(rejected, q, QuoteIs(rejected, q, PaymentPending),
                if q in db.quotes && db.quotes[q].expires <= db.now then Expired else Ready)
    else Ok(db)
  }

  function RejectAllStale(db: Db, rows: seq<Id>): Result<Db, Refusal>
    decreases |rows|
  {
    if rows == [] then Ok(db)
    else
      var next :- RejectStale(db, rows[0]);
      RejectAllStale(next, rows[1..])
  }

  function RecoverUnsubmitted(db: Db, rows: seq<Id>): Tx<()> {
    var next :- RejectAllStale(db, rows);
    Ok((next, ()))
  }

  // The rows whose artifacts retention may delete.
  predicate Removable(db: Db, q: Id) {
    && q in db.quotes && db.quotes[q].state == Expired && db.quotes[q].expires < db.now - UNPAID_GRACE
    && db.quotes[q].report in db.artifacts && db.artifacts[db.quotes[q].report].storage == Available
    && (forall a :: a in db.attempts && db.attempts[a].quote == q ==> db.attempts[a].state == Rejected)
    && q !in db.entitlements
  }

  function SetStorage(db: Db, report: Id, storage: StorageState): Db {
    if report in db.artifacts then
      db.(artifacts := db.artifacts[report := db.artifacts[report].(storage := storage)])
    else db
  }

  // `rows` are the selected quotes whose stored files the cleanup removed.
  function RemoveUnpaid(db: Db, rows: seq<Id>): Db
    decreases |rows|
  {
    if rows == [] then db
    else if Removable(db, rows[0]) then RemoveUnpaid(SetStorage(db, db.quotes[rows[0]].report, Deleted), rows[1..])
    else RemoveUnpaid(db, rows[1..])
  }

  function SweepExpired(db: Db): Db {
    db.(quotes := map q | q in db.quotes ::
      var row := db.quotes[q];
      if row.state == Ready && row.expires <= db.now then row.(state := Expired) else row)
  }
}
