// The tables of the payment ledger, with the constraints and triggers that
// the migrations put on them.
// Identifiers, digests and addresses are opaque: they are only compared.

module LedgerRows {
  import opened Wrappers

  type Id = int
  type Time = int  // milliseconds

  const AMOUNT: nat := 10_000_000_000_000_000
  const NETWORK: Id := 31611
  const ASSET: Id := 0x118917a40FAF1CD7a13dB0Ef56C86De7973Ac503
  const SECOND: int := 1_000
  const LEASE: int := 20 * SECOND
  const STALE: int := 60 * SECOND
  const FIRST_RECONCILE: int := 30 * SECOND
  const RECONCILE_LEASE: int := 60 * SECOND
  const UNPAID_GRACE: int := 15 * 60 * SECOND
  const RETENTION: int := 7 * 24 * 60 * 60 * SECOND
  const BUILD_SLOTS: nat := 4

  datatype RequestState = Preparing | RequestReady | RequestRejected | BuildFailed

  datatype QuoteState = Ready | PaymentPending | PaymentUncertain | Paid | Expired | ManualReview

  datatype AttemptState = Received | Verified | Submitting | Unknown | Confirmed | Rejected | InReview

  datatype StorageState = Available | Recovery | Deleted

  datatype Body = Body(payer: Id, content: Id)

  datatype RequestRow = RequestRow(
    scope: Id, key: Id, body: Body, report: Id,
    state: RequestState, quote: Option<Id>, lease: Option<Time>)

  datatype ArtifactRow = ArtifactRow(scope: Id, sha: Id, storage: StorageState)

  datatype QuoteRow = QuoteRow(
    request: Id, scope: Id, report: Id, payTo: Id, payer: Id, expires: Time, state: QuoteState)

  // The parts of `correlation` that the ledger reads.
  datatype GrantField = Absent | Malformed | Digest(digest: Id)

  datatype Mode = NoMode | Merchant | OtherMode

  datatype Correlation = Correlation(
    mode: Mode,                  // payment_mode
    grant: GrantField,           // live_grant_digest
    grantId: Option<Id>,         // live_grant_id
    signedGrant: bool,           // live_grant_version is 'v2'
    network: Option<Id>, asset: Option<Id>, amount: Option<nat>,
    from: Option<Id>, to: Option<Id>,
    nonce: Option<Id>, decimalNonce: bool)

  datatype Authorization = Authorization(
    identity: Id, permit2: bool, validUntil: Time, correlation: Correlation)

  datatype AttemptRow = AttemptRow(
    quote: Id, authorization: Authorization, state: AttemptState, tx: Option<Id>,
    updated: Time, reconciliations: nat, nextReconcile: Time)

  datatype Consumption = Consumption(grantId: Id, attempt: Id)

  datatype Authority = Authority(
    grantId: Id, policy: Id, notBefore: Time, expires: Time,
    amountPer: nat, maxSubmissions: nat, maxTotal: nat)

  datatype Reservation = Reservation(grant: Id, ordinal: nat, attempt: Id, payer: Id, amount: nat)

  datatype Receipt = Receipt(
    quote: Id, report: Id, sha: Id, attempt: Id, network: Id, asset: Id, amount: nat,
    payer: Id, payTo: Id, tx: Id, log: Id, confirmedAt: Time)

  // One confirming transaction writes the receipt row and the entitlement row
  // together, so the receipt is kept inside the entitlement.
  datatype Entitlement = Entitlement(attempt: Id, report: Id, scope: Id, sha: Id, receipt: Receipt, retainUntil: Time)

  datatype Db = Db(
    now: Time,
    requests: map<Id, RequestRow>,
    artifacts: map<Id, ArtifactRow>,           // by report
    quotes: map<Id, QuoteRow>,
    attempts: map<Id, AttemptRow>,
    consumptions: map<Id, Consumption>,        // by grant digest
    authorities: map<Id, Authority>,           // by grant digest
    reservations: seq<Reservation>,            // in insertion order
    events: map<(Id, Id), Id>,                 // (transaction, log index) to attempt
    entitlements: map<Id, Entitlement>,        // by quote
    deliveries: seq<Id>)                       // quote of each delivery

  const EMPTY := Db(0, map[], map[], map[], map[], map[], map[], [], map[], map[], [])

  // A caller's copy of a quote. Its terms never change in the ledger.
  datatype QuoteView = QuoteView(id: Id, scope: Id, report: Id, sha: Id, payTo: Id, payer: Id, expires: Time)

  datatype Refusal =
    | RateLimited | IdempotencyConflict | InvalidState | Uncertain | QuoteExpired
    | AuthorizationReused | PaymentRejected
    | TransitionTrigger | ImmutableTrigger | UniqueViolation | ForeignKeyViolation | CheckViolation | MissingRow

  type Tx<T> = Result<(Db, T), Refusal>

  // ---------------------------------------------------------------- triggers

  predicate QuoteMove(from: QuoteState, to: QuoteState) {
    match from
    case Ready => to in {PaymentPending, Expired}
    case PaymentPending => to in {PaymentUncertain, Paid, Ready, Expired, ManualReview}
    case PaymentUncertain => to in {Paid, ManualReview}
    case Paid => to == ManualReview
    case ManualReview => to == Paid
    case Expired => false
  }

  predicate AttemptMove(from: AttemptState, to: AttemptState) {
    match from
    case Received => to in {Verified, Rejected}
    case Verified => to in {Submitting, Rejected}
    case Submitting => to in {Confirmed, Unknown, Rejected}
    case Unknown => to in {Confirmed, InReview}
    case Confirmed => to == InReview
    case InReview => to == Confirmed
    case Rejected => false
  }

  // UPDATE quotes SET state=...
  function SetQuote(db: Db, q: Id, state: QuoteState): Result<Db, Refusal>
    requires q in db.quotes
  {
    var row := db.quotes[q];
    if row.state != state && !QuoteMove(row.state, state) then Err(TransitionTrigger)
    else Ok(db.(quotes := db.quotes[q := row.(state := state)]))
  }

  predicate QuoteIs(db: Db, q: Id, state: QuoteState) {
    q in db.quotes && db.quotes[q].state == state
  }

  predicate AttemptIs(db: Db, a: Id, state: AttemptState) {
    a in db.attempts && db.attempts[a].state == state
  }

  // UPDATE quotes SET state=... WHERE id=q AND the clause that `matched`
  function MoveQuote(db: Db, q: Id, matched: bool, state: QuoteState): Result<Db, Refusal>
    requires matched ==> q in db.quotes
  {
    if matched then SetQuote(db, q, state) else Ok(db)
  }

  // UPDATE payment_attempts SET state=..., tx_hash=..., updated_at=now()
  function SetAttempt(db: Db, a: Id, state: AttemptState, tx: Option<Id>): Result<Db, Refusal>
    requires a in db.attempts
  {
    var row := db.attempts[a];
    if row.state != state && !AttemptMove(row.state, state) then Err(TransitionTrigger)
    else if row.tx.Some? && tx != row.tx then Err(ImmutableTrigger)
    else Ok(db.(attempts := db.attempts[a := row.(state := state, tx := tx, updated := db.now)]))
  }

  // UPDATE payment_attempts SET state=... WHERE id=a AND the clause that `matched`
  function MoveAttempt(db: Db, a: Id, matched: bool, state: AttemptState): Result<Db, Refusal>
    requires matched ==> a in db.attempts
  {
    if matched then SetAttempt(db, a, state, db.attempts[a].tx) else Ok(db)
  }

  // ------------------------------------------------------------- table views

  predicate Submitted(state: AttemptState) {
    state == Submitting || state == Unknown || state == Confirmed || state == InReview
  }

  function ReservationsOf(rows: seq<Reservation>, grant: Id): seq<Reservation> {
    if rows == [] then []
    else
      var rest := ReservationsOf(rows[..|rows| - 1], grant);
      if rows[|rows| - 1].grant == grant then rest + [rows[|rows| - 1]] else rest
  }

  function TotalReserved(rows: seq<Reservation>): nat {
    if rows == [] then 0 else TotalReserved(rows[..|rows| - 1]) + rows[|rows| - 1].amount
  }

  // PREPARING requests whose build lease has not run out
  function LiveLeases(db: Db): set<Id> {
    set r | r in db.requests && db.requests[r].state == Preparing
            && db.requests[r].lease.Some? && db.requests[r].lease.value > db.now
  }

  function ViewOf(db: Db, q: Id): QuoteView
    requires q in db.quotes && db.quotes[q].report in db.artifacts
  {
    var row := db.quotes[q];
    QuoteView(q, row.scope, row.report, db.artifacts[row.report].sha, row.payTo, row.payer, row.expires)
  }
}
