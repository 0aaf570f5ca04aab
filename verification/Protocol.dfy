// The gateway as a whole: every handler, operator run and worker is a process
// with a program counter and the copies it read earlier, and every ledger
// transaction or external call is one step. Any process may stop between two
// steps. What the network, the wallet and the clock answer is chosen by the
// action.

module Protocol {
  import opened Wrappers
  import opened LedgerRows
  import opened LedgerTransactions

  datatype Who = Gateway | Operator | RecoveryCall | Worker(count: nat)

  const GIVE_UP: nat := 10

  datatype Proc =
    // builders
    | Building(request: Id, row: RequestRow)
    // up to the external settle
    | Loaded(view: QuoteView, seen: QuoteState, who: Who)
    | SignatureVerified(view: QuoteView, who: Who)
    | Begun(view: QuoteView, attempt: Id, who: Who)             // next: markSubmitting
    | Cleared(view: QuoteView, attempt: Id, who: Who)           // next: settle
    // after it
    | Recording(view: QuoteView, attempt: Id, tx: Option<Id>, who: Who, threw: bool)   // next: unknown
    | Confirming(view: QuoteView, attempt: Id, tx: Option<Id>, who: Who)               // next: the chain is asked
    | Recovered(view: QuoteView, attempt: Id, tx: Option<Id>, receipt: Receipt)        // next: unknown, then confirm
    | Observed(view: QuoteView, attempt: Id, tx: Option<Id>, receipt: Receipt, who: Who)  // next: confirm
    | Catching(view: QuoteView, attempt: Id, tx: Option<Id>, review: bool)             // next: unknown
    | Reviewing(view: QuoteView, attempt: Id)                                          // next: manualReview
    | RecoveryLoaded(view: QuoteView, hash: Id)
    // delivery
    | Rereading(view: QuoteView)
    | PaidSeen(view: QuoteView)
    | EntitlementRead(view: QuoteView, attempt: Id)             // next: revalidate
    | Delivering(view: QuoteView)
    | Rebuilding(quote: Id, report: Id)
    | Stopped

  datatype World = World(
    db: Db,
    procs: map<Id, Proc>,
    settles: seq<Id>,   // the attempt of each external settle, in order
    claims: seq<Id>)    // the request of each build claim, in order

  const INITIAL := World(EMPTY, map[], [], [])

  datatype Answer = NoReceipt | Failed(review: bool) | Confirmation(receipt: Receipt)

  datatype Revalidation = StillFinal | Reorganised | Unavailable(review: bool)

  datatype Action =
    | Tick(elapsed: nat)
    | Activate(grant: Id, authority: Authority)
    | Create(id: Id, scope: Id, key: Id, body: Body, report: Id, withinBudget: bool)
    | Claim(p: Id, pick: Id)
    | FinishBuild(p: Id, report: Id, sha: Id, quote: Id, payTo: Id, expires: Time)
    | FailBuild(p: Id, rejected: bool)
    | Load(p: Id, quote: Id, who: Who)
    | ExpireLoaded(p: Id)
    | VerifySignature(p: Id)
    | Begin(p: Id, id: Id, auth: Authorization, clock: Time)
    | Submission(p: Id, merchant: Option<Id>, clock: Time)
    | Settle(p: Id, tx: Option<Id>, review: bool)
    | Record(p: Id)
    | Ask(p: Id, answer: Answer)
    | Fail(p: Id)
    | ConfirmReceipt(p: Id)
    | Catch(p: Id)
    | Review(p: Id)
    | LoadRecovery(p: Id, quote: Id, hash: Id)
    | PickRecoverable(p: Id, attempt: Id)
    | Lease(p: Id, attempt: Id)
    | Resume(p: Id, grant: Id)
    | Postpone(attempt: Id, count: nat)
    | Reread(p: Id)
    | ReadPaid(p: Id)
    | ReadEntitlement(p: Id, clock: Time)
    | Revalidate(p: Id, result: Revalidation)
    | Damage(p: Id)
    | Deliver(p: Id)
    | SweepStale(rows: seq<Id>)
    | SweepQuotes
    | Cleanup(rows: seq<Id>)
    | StartRebuild(p: Id, quote: Id)
    | FinishRebuild(p: Id)
    | Stop(p: Id)

  function Put(w: World, p: Id, proc: Proc): World {
    w.(procs := w.procs[p := proc])
  }

  function Commit(w: World, db: Db, p: Id, proc: Proc): World {
    w.(db := db, procs := w.procs[p := proc])
  }

  // What a process does next with the chain's answer.
  function AfterAnswer(view: QuoteView, a: Id, tx: Option<Id>, who: Who, answer: Answer): Proc {
    match (who, answer)
    case (RecoveryCall, Confirmation(r)) => Recovered(view, a, tx, r)
    case (_, Confirmation(r)) => Observed(view, a, tx, r, who)
    case (Gateway, NoReceipt) => Catching(view, a, tx, false)
    case (Gateway, Failed(review)) => Catching(view, a, tx, review)
    case (Operator, _) => Stopped
    case (RecoveryCall, NoReceipt) => Stopped
    case (RecoveryCall, Failed(review)) => if review then Reviewing(view, a) else Stopped
    case (Worker(count), NoReceipt) => if count >= GIVE_UP then Reviewing(view, a) else Stopped
    case (Worker(count), Failed(review)) => if count >= GIVE_UP || review then Reviewing(view, a) else Stopped
  }

  // What a process does next when confirming was refused, or when an error
  // that carries no public code broke in (`rejected` false).
  function AfterFailure(view: QuoteView, a: Id, tx: Option<Id>, who: Who, rejected: bool): Proc {
    match who
    case Gateway => Catching(view, a, tx, rejected)
    case Operator => Stopped
    case RecoveryCall => Stopped
    case Worker(count) => if count >= GIVE_UP || rejected then Reviewing(view, a) else Stopped
  }

  predicate EntitlementReadable(db: Db, view: QuoteView, clock: Time) {
    && view.id in db.entitlements
    && var e := db.entitlements[view.id];
       && e.scope == view.scope && e.report == view.report && e.sha == view.sha
       && AttemptIs(db, e.attempt, Confirmed) && clock < e.retainUntil
  }

  // ------------------------------------------------------ steps that only read

  // The process and its next program counter; None when the step is disabled.
  function Reads(db: Db, procs: map<Id, Proc>, action: Action): Option<(Id, Proc)> {
    if action.Load? || action.LoadRecovery? || action.StartRebuild? then
      if action.p in procs then None else Moved(action.p, Starts(db, action))
    else if action.Stop? || Continuing(action) then
      if action.p !in procs then None
      else if action.Stop? then Some((action.p, Stopped))
      else Moved(action.p, Continues(db, procs[action.p], action))
    else None
  }

  function Moved(p: Id, next: Option<Proc>): Option<(Id, Proc)> {
    match next
    case Some(proc) => Some((p, proc))
    case None => None
  }

  function Starts(db: Db, action: Action): Option<Proc>
    requires action.Load? || action.LoadRecovery? || action.StartRebuild?
  {
    var q := action.quote;
    if q !in db.quotes || db.quotes[q].report !in db.artifacts then None
    else
      var state := db.quotes[q].state;
      match action
      case Load(_, _, who) => if who.Gateway? || who.Operator? then Some(Loaded(ViewOf(db, q), state, who)) else None
      case LoadRecovery(_, _, hash) =>
        if state == PaymentPending || state == PaymentUncertain || state == Expired then Some(RecoveryLoaded(ViewOf(db, q), hash)) else None
      case StartRebuild(_, _) =>
        var report := db.quotes[q].report;
        if db.artifacts[report].storage == Recovery then Some(Rebuilding(q, report)) else None
  }

  predicate Continuing(action: Action) {
    Chasing(action) || Reading(action)
  }

  // Finding out what became of a payment.
  predicate Chasing(action: Action) {
    action.Ask? || action.Fail? || action.PickRecoverable? || action.Resume?
  }

  // Reading a quote and its entitlement.
  predicate Reading(action: Action) {
    action.VerifySignature? || action.Reread? || action.ReadPaid? || action.ReadEntitlement? || action.Revalidate?
  }

  function Continues(db: Db, c: Proc, action: Action): Option<Proc>
    requires Continuing(action)
  {
    if Chasing(action) then Chases(db, c, action) else ReadsOn(db, c, action)
  }

  function Chases(db: Db, c: Proc, action: Action): Option<Proc>
    requires Chasing(action)
  {
    match action
    case Ask(_, answer) => Asks(c, answer)
    case Fail(_) => Fails(c)
    case PickRecoverable(_, a) => Picks(db, c, a)
    case Resume(_, grant) => Resumes(db, c, grant)
  }

  function ReadsOn(db: Db, c: Proc, action: Action): Option<Proc>
    requires Reading(action)
  {
    match action
    case VerifySignature(_) => Verifies(c)
    case Reread(_) => Rereads(db, c)
    case ReadPaid(_) => SeesPaid(c)
    case ReadEntitlement(_, clock) => ReadsEntitlement(db, c, clock)
    case Revalidate(_, result) => Revalidates(c, result)
  }

  // The gateway verifies a signature for a READY quote; the operator does not
  // look at the state here.
  function Verifies(c: Proc): Option<Proc> {
    if c.Loaded? && (c.seen == Ready || c.who.Operator?) then Some(SignatureVerified(c.view, c.who)) else None
  }

  function Asks(c: Proc, answer: Answer): Option<Proc> {
    if c.Confirming? then Some(AfterAnswer(c.view, c.attempt, c.tx, c.who, answer)) else None
  }

  function Fails(c: Proc): Option<Proc> {
    if (c.Recording? || c.Confirming? || c.Observed?) && !c.who.Operator? then
      Some(AfterFailure(c.view, c.attempt, c.tx, c.who, false))
    else None
  }

  function Picks(db: Db, c: Proc, a: Id): Option<Proc> {
    if c.RecoveryLoaded? && (AttemptIs(db, a, Submitting) || AttemptIs(db, a, Unknown)) && db.attempts[a].quote == c.view.id
       && (db.attempts[a].tx.None? || db.attempts[a].tx == Some(c.hash)) then
      Some(Confirming(c.view, a, Some(c.hash), RecoveryCall))
    else None
  }

  // An operator whose grant is already consumed only confirms, for the attempt
  // that consumed it.
  function Resumes(db: Db, c: Proc, grant: Id): Option<Proc> {
    if c.Loaded? && c.who.Operator? && grant in db.consumptions && db.consumptions[grant].attempt in db.attempts then
      var a := db.consumptions[grant].attempt;
      Some(if db.attempts[a].state == Confirmed then Stopped else Confirming(c.view, a, db.attempts[a].tx, Operator))
    else None
  }

  function Rereads(db: Db, c: Proc): Option<Proc> {
    if c.Rereading? && QuoteIs(db, c.view.id, Paid) then Some(PaidSeen(c.view)) else None
  }

  function SeesPaid(c: Proc): Option<Proc> {
    if c.Loaded? && c.seen == Paid && c.who.Gateway? then Some(PaidSeen(c.view)) else None
  }

  function ReadsEntitlement(db: Db, c: Proc, clock: Time): Option<Proc> {
    if c.PaidSeen? && EntitlementReadable(db, c.view, clock) then
      Some(EntitlementRead(c.view, db.entitlements[c.view.id].attempt))
    else None
  }

  function Revalidates(c: Proc, result: Revalidation): Option<Proc> {
    if c.EntitlementRead? then
      match result
      case StillFinal => Some(Delivering(c.view))
      case Reorganised => Some(Reviewing(c.view, c.attempt))
      case Unavailable(review) => Some(if review then Reviewing(c.view, c.attempt) else Stopped)
    else None
  }

  function ReadStep(w: World, action: Action): World {
    match Reads(w.db, w.procs, action)
    case Some((p, proc)) => Put(w, p, proc)
    case None => w
  }

  // ------------------------------------------------------------- the next world

  ghost function Step(w: World, action: Action): World {
    if Unattended(action) then w.(db := UnattendedStep(w.db, action))
    else if Crossing(action) then CrossingStep(w, action)
    else if Settling(action) then SettlingStep(w, action)
    else if Keeping(action) then KeepingStep(w, action)
    else ReadStep(w, action)
  }

  // Up to the boundary and across it.
  predicate Crossing(action: Action) {
    action.ExpireLoaded? || action.Begin? || action.Submission? || action.Settle?
  }

  function CrossingStep(w: World, action: Action): World
    requires Crossing(action)
  {
    match action
    case ExpireLoaded(p) => ExpireStep(w, p)
    case Begin(p, id, auth, clock) => BeginStep(w, p, id, auth, clock)
    case Submission(p, merchant, clock) => SubmitStep(w, p, merchant, clock)
    case Settle(p, tx, review) => SettleStep(w, p, tx, review)
  }

  // From the settle to its outcome.
  predicate Settling(action: Action) {
    action.Record? || action.ConfirmReceipt? || action.Catch? || action.Review? || action.Lease?
  }

  function SettlingStep(w: World, action: Action): World
    requires Settling(action)
  {
    match action
    case Record(p) => RecordStep(w, p)
    case ConfirmReceipt(p) => ConfirmStep(w, p)
    case Catch(p) => CatchStep(w, p)
    case Review(p) => ReviewStep(w, p)
    case Lease(p, a) => LeaseStep(w, p, a)
  }

  // Building, delivering and repairing reports.
  predicate Keeping(action: Action) {
    action.Claim? || action.FinishBuild? || action.FailBuild? || action.Damage? || action.Deliver? || action.FinishRebuild?
  }

  function KeepingStep(w: World, action: Action): World
    requires Keeping(action)
  {
    match action
    case Claim(p, pick) => ClaimStep(w, p, pick)
    case FinishBuild(p, report, sha, quote, payTo, expires) => PublishStep(w, p, report, sha, quote, payTo, expires)
    case FailBuild(p, rejected) => RejectStep(w, p, rejected)
    case Damage(p) => DamageStep(w, p)
    case Deliver(p) => DeliverStep(w, p)
    case FinishRebuild(p) => RebuildStep(w, p)
  }

  // Steps of no process in particular: the clock, requests and the sweeps.
  predicate Unattended(action: Action) {
    action.Tick? || action.Activate? || action.Create? || action.Postpone? || action.SweepStale? || action.SweepQuotes? || action.Cleanup?
  }

  ghost function UnattendedStep(db: Db, action: Action): Db
    requires Unattended(action)
  {
    match action
    case Tick(elapsed) => db.(now := db.now + elapsed)
    case Activate(grant, authority) => After(db, ActivateGrant(db, grant, authority))
    case Create(id, scope, key, body, report, withinBudget) => After(db, CreateRequest(db, id, scope, key, body, report, withinBudget))
    case Postpone(a, count) => After(db, Reschedule(db, a, count))
    case SweepStale(rows) => After(db, RecoverUnsubmitted(db, rows))
    case SweepQuotes => SweepExpired(db)
    case Cleanup(rows) => RemoveUnpaid(db, rows)
  }

  function PublishStep(w: World, p: Id, report: Id, sha: Id, quote: Id, payTo: Id, expires: Time): World {
    if p in w.procs && w.procs[p].Building? then
      var tx := Publish(w.db, w.procs[p].request, w.procs[p].row, report, sha, quote, payTo, expires);
      Commit(w, After(w.db, tx), p, if tx.Ok? then Stopped else w.procs[p])
    else w
  }

  function RejectStep(w: World, p: Id, rejected: bool): World {
    if p in w.procs && w.procs[p].Building? then
      Commit(w, After(w.db, RejectBuild(w.db, w.procs[p].request, rejected)), p, Stopped)
    else w
  }

  function ExpireStep(w: World, p: Id): World {
    if p in w.procs && w.procs[p].Loaded? && w.procs[p].seen == Ready then
      Commit(w, After(w.db, Expire(w.db, w.procs[p].view.id)), p, Stopped)
    else w
  }

  // The stored report could not be read back intact.
  function DamageStep(w: World, p: Id): World {
    if p in w.procs && w.procs[p].Delivering? then
      Commit(w, SetStorage(w.db, w.procs[p].view.report, Recovery), p, Stopped)
    else w
  }

  function DeliverStep(w: World, p: Id): World {
    if p in w.procs && w.procs[p].Delivering? then
      Commit(w, After(w.db, RecordDelivery(w.db, w.procs[p].view)), p, Stopped)
    else w
  }

  function RebuildStep(w: World, p: Id): World {
    if p in w.procs && w.procs[p].Rebuilding? then
      Commit(w, SetStorage(w.db, w.procs[p].report, Available), p, Stopped)
    else w
  }

  function ClaimStep(w: World, p: Id, pick: Id): World {
    if p in w.procs then w
    else
      match ClaimBuild(w.db, pick)
      case Ok((db, Some(r))) =>
        if r in db.requests then w.(db := db, procs := w.procs[p := Building(r, db.requests[r])], claims := w.claims + [r]) else w
      case Ok((db, None)) => w.(db := db)
      case Err(_) => w
  }

  function BeginStep(w: World, p: Id, id: Id, auth: Authorization, clock: Time): World {
    if p in w.procs && w.procs[p].SignatureVerified? then
      var tx := BeginAttempt(w.db, w.procs[p].view.id, id, auth, clock);
      Commit(w, After(w.db, tx), p, if tx.Ok? then Begun(w.procs[p].view, id, w.procs[p].who) else Stopped)
    else w
  }

  // The operator's ledger has no merchant address: it always spends a grant.
  function SubmitStep(w: World, p: Id, merchant: Option<Id>, clock: Time): World {
    if p in w.procs && w.procs[p].Begun? then
      var c := w.procs[p];
      var tx := MarkSubmitting(w.db, c.view.id, c.attempt, if c.who.Operator? then None else merchant, clock);
      Commit(w, After(w.db, tx), p, if tx.Ok? && tx.value.1 == Submit then Cleared(c.view, c.attempt, c.who) else Stopped)
    else w
  }

  // The only step that calls the facilitator. `tx` is None when the call threw.
  function SettleStep(w: World, p: Id, tx: Option<Id>, review: bool): World {
    if p in w.procs && w.procs[p].Cleared? then
      var c := w.procs[p];
      var next :=
        if tx.None? && c.who.Gateway? then Catching(c.view, c.attempt, None, review)
        else Recording(c.view, c.attempt, tx, c.who, tx.None?);
      w.(procs := w.procs[p := next], settles := w.settles + [c.attempt])
    else w
  }

  function RecordStep(w: World, p: Id): World {
    if p in w.procs && w.procs[p].Recording? then
      var c := w.procs[p];
      Commit(w, After(w.db, MarkUnknown(w.db, c.view.id, c.attempt, c.tx)), p,
             if c.threw then Stopped else Confirming(c.view, c.attempt, c.tx, c.who))
    else if p in w.procs && w.procs[p].Recovered? then
      var c := w.procs[p];
      Commit(w, After(w.db, MarkUnknown(w.db, c.view.id, c.attempt, c.tx)), p, Observed(c.view, c.attempt, c.tx, c.receipt, RecoveryCall))
    else w
  }

  function ConfirmStep(w: World, p: Id): World {
    if p in w.procs && w.procs[p].Observed? then
      var c := w.procs[p];
      var tx := Confirm(w.db, c.view, c.attempt, c.receipt);
      Commit(w, After(w.db, tx), p,
             if tx.Err? then AfterFailure(c.view, c.attempt, c.tx, c.who, tx.error == PaymentRejected)
             else if c.who.Gateway? || c.who.RecoveryCall? then Rereading(c.view)
             else Stopped)
    else w
  }

  // The handler's catch block, and the review it may ask for.
  function CatchStep(w: World, p: Id): World {
    if p in w.procs && w.procs[p].Catching? then
      var c := w.procs[p];
      Commit(w, After(w.db, MarkUnknown(w.db, c.view.id, c.attempt, c.tx)), p,
             if c.review then Reviewing(c.view, c.attempt) else Stopped)
    else w
  }

  function ReviewStep(w: World, p: Id): World {
    if p in w.procs && w.procs[p].Reviewing? then
      Commit(w, After(w.db, HoldForReview(w.db, w.procs[p].view.id, w.procs[p].attempt)), p, Stopped)
    else w
  }

  // A worker leases one uncertain attempt and reads its quote.
  function LeaseStep(w: World, p: Id, a: Id): World {
    var tx := LeaseReconciliation(w.db, a);
    if p !in w.procs && a in w.db.attempts && w.db.attempts[a].quote in w.db.quotes
       && w.db.quotes[w.db.attempts[a].quote].report in w.db.artifacts && tx.Ok? && tx.value.1 then
      Commit(w, tx.value.0, p,
             Recording(ViewOf(w.db, w.db.attempts[a].quote), a, w.db.attempts[a].tx, Worker(w.db.attempts[a].reconciliations + 1), false))
    else w
  }

  ghost function Run(w: World, actions: seq<Action>): World {
    if actions == [] then w else Step(Run(w, actions[..|actions| - 1]), actions[|actions| - 1])
  }
}
