// The guard that the browser keeps on its payment, and the turns of a payment
// attempt, next to the gateway it pays. One event is one turn of the page: what
// runs without waiting for the network, the wallet or the user. Any save of a
// turn may fail.

module BrowserFlow {
  import opened Wrappers
  import opened LedgerRows
  import opened LedgerInvariant
  import P = Protocol

  datatype Guard = Clear | Started | Uncertain

  // What the session keeps of its one quote.
  datatype Flow = Flow(guard: Guard, hash: bool)

  function BeginPayment(flow: Flow): Option<Flow> {
    if flow.guard != Clear then None else Some(flow.(guard := Started))
  }

  function PaymentFailure(flow: Flow, cancelled: bool, ready: bool): Flow {
    flow.(guard := if cancelled && ready then Clear else Guard.Uncertain)
  }

  function ExpiredQuoteFlow(flow: Flow, state: QuoteState): Flow {
    if state != Expired || flow.guard == Clear || flow.hash then flow else flow.(guard := Clear)
  }

  // Where an attempt stands. `attempt` is the attempt's own copy of the flow;
  // the page's flow is not replaced until the attempt concludes.
  datatype Phase =
    | Idle
    | Validating
    | Signing(attempt: Flow)
    | Requested(attempt: Flow)
    | Answered(attempt: Flow)                       // with the report
    | Cancelled(attempt: Flow)                      // in the wallet, before any request
    | Fetched(attempt: Flow, cancelled: bool, seen: Option<QuoteState>)
    | PaidSeen(attempt: Flow, cancelled: bool)      // the paid report is being fetched

  // `flow` is the page's flow and `saved` what the session storage holds, which
  // a reload finds again.
  datatype Browser = Browser(
    quote: Id, flow: Flow, saved: Flow, shown: Option<QuoteState>, poll: Option<QuoteState>, phase: Phase,
    paid: bool)      // a paid request was sent

  datatype Joint = Joint(server: P.World, tab: Browser)

  // Answers to a paid request: the report, a 202 that names the submitted
  // attempt, or anything else.
  datatype Reply = Report | Unconfirmed(attempt: Id) | Refused

  // `saved` is whether the page's own flow could be saved in the turn, `stored`
  // whether the flow that concludes an attempt could.
  datatype Event =
    | Server(actions: seq<P.Action>)
    | Poll
    | PollArrives(saved: bool)
    | Press(clock: Time)
    | WalletChanged
    | Raise(stored: bool)
    | CancelInWallet
    | FailSigning(stored: bool)
    | Pay
    | LoseAnswer(stored: bool)
    | Answer(reply: Reply, hash: bool, valid: bool, saved: bool, stored: bool)
    | Fetch(fails: bool)
    | Conclude(saved: bool, stored: bool)
    | Remember(saved: bool, stored: bool)
    | Finish(delivered: bool, failed: bool, saved: bool, stored: bool)
    | Receive(hash: bool, saved: bool)
    | NoteHash(saved: bool)
    | Reload

  function StateOf(db: Db, q: Id): Option<QuoteState> {
    if q in db.quotes then Some(db.quotes[q].state) else None
  }

  // A gateway answer is never made up: a report was delivered, a named attempt
  // had crossed the boundary.
  predicate Truthful(db: Db, q: Id, reply: Reply) {
    match reply
    case Report => q in db.deliveries
    case Unconfirmed(a) => SubmittedIn(db, a) && db.attempts[a].quote == q
    case Refused => true
  }

  // saveFlow of the page's flow; when it throws, storage keeps what it had.
  function Saving(b: Browser, flow: Flow, saved: bool): Browser {
    b.(flow := flow, saved := if saved then flow else b.saved)
  }

  // persist of the attempt's outcome. When it throws, the attempt rejects and
  // the page goes on with the flow it had before.
  function Persisting(b: Browser, flow: Flow, stored: bool): Browser {
    if stored then b.(flow := flow, saved := flow, phase := Idle) else b.(phase := Idle)
  }

  // rememberQuote: the page's flow, cleared if the quote has expired, is saved,
  // and then the quote is shown.
  function Remembered(b: Browser, state: QuoteState, saved: bool): Browser {
    var kept := Saving(b, ExpiredQuoteFlow(b.flow, state), saved);
    if saved then kept.(shown := Some(state)) else kept
  }

  // The end of executePaymentAttempt, given the quote it read, if it could. A
  // quote seen as paid after a report is not saved again.
  function Concluded(b: Browser, attempt: Flow, cancelled: bool, seen: Option<QuoteState>, stored: bool): Browser {
    if !cancelled && seen == Some(Paid) then b.(flow := attempt, phase := Idle)
    else Persisting(b, PaymentFailure(attempt, cancelled, seen == Some(Ready)), stored)
  }

  // The page handles the answer: recovery information is saved with its flow.
  // Without a valid report the attempt concludes in the same turn.
  function Answers(b: Browser, attempt: Flow, reply: Reply, hash: bool, valid: bool, saved: bool, stored: bool): Browser {
    var kept := Saving(b, b.flow.(hash := b.flow.hash || hash), saved);
    if reply.Report? && valid && saved then kept.(phase := Answered(attempt))
    else Concluded(kept, attempt, false, None, stored)
  }

  // The quote was read again: unless it is paid, remembering it and concluding
  // are one turn.
  function Concludes(b: Browser, attempt: Flow, cancelled: bool, seen: Option<QuoteState>, saved: bool, stored: bool): Browser {
    if seen.None? then Concluded(b, attempt, cancelled, None, stored)
    else Concluded(Remembered(b, seen.value, saved), attempt, cancelled, if saved then seen else None, stored)
  }

  // A delivered report clears the guard.
  function Delivered(b: Browser, saved: bool): Browser {
    Saving(b, b.flow.(guard := Clear), saved)
  }

  // The page compares the quote's terms with its own clock.
  predicate InTime(db: Db, q: Id, clock: Time) {
    q in db.quotes && clock < db.quotes[q].expires
  }

  // The recovery form, and reports fetched outside of an attempt, belong to a
  // quote that the page has seen beyond ready.
  predicate Recoverable(b: Browser) {
    && b.phase.Idle? && b.poll.None?
    && b.shown in {Some(PaymentPending), Some(PaymentUncertain), Some(Expired), Some(Paid)}
  }

  // What the page makes of an event; None when it cannot happen now.
  function React(db: Db, b: Browser, e: Event): Option<Browser> {
    match e
    case Server(_) => Some(b)
    case Poll =>
      if !b.phase.Idle? || b.poll.Some? || StateOf(db, b.quote).None? then None
      else Some(b.(poll := StateOf(db, b.quote)))
    case PollArrives(saved) =>
      if !b.phase.Idle? || b.poll.None? then None else Some(Remembered(b, b.poll.value, saved).(poll := None))
    case Press(clock) =>
      if !b.phase.Idle? || b.poll.Some? || b.flow.guard != Clear || b.shown != Some(Ready) || !InTime(db, b.quote, clock) then None
      else Some(b.(phase := Validating))
    case WalletChanged => if b.phase.Validating? then Some(b.(phase := Idle)) else None
    case Raise(stored) =>
      if !b.phase.Validating? || BeginPayment(b.flow).None? then None
      else
        var attempt := BeginPayment(b.flow).value;
        Some(if stored then b.(saved := attempt, phase := Signing(attempt)) else b.(phase := Idle))
    case CancelInWallet => if b.phase.Signing? then Some(b.(phase := Cancelled(b.phase.attempt))) else None
    case FailSigning(stored) =>
      if b.phase.Signing? then Some(Concluded(b, b.phase.attempt, false, None, stored)) else None
    case Pay => if b.phase.Signing? then Some(b.(phase := Requested(b.phase.attempt), paid := true)) else None
    case LoseAnswer(stored) =>
      if b.phase.Requested? then Some(Concluded(b, b.phase.attempt, false, None, stored)) else None
    case Answer(reply, hash, valid, saved, stored) =>
      if !b.phase.Requested? || !Truthful(db, b.quote, reply) then None
      else Some(Answers(b, b.phase.attempt, reply, hash, valid, saved, stored))
    case Fetch(fails) =>
      if !b.phase.Answered? && !b.phase.Cancelled? then None
      else Some(b.(phase := Fetched(b.phase.attempt, b.phase.Cancelled?, if fails then None else StateOf(db, b.quote))))
    case Conclude(saved, stored) =>
      if !b.phase.Fetched? || b.phase.seen == Some(Paid) then None
      else Some(Concludes(b, b.phase.attempt, b.phase.cancelled, b.phase.seen, saved, stored))
    case Remember(saved, stored) =>
      if !b.phase.Fetched? || b.phase.seen != Some(Paid) then None
      else if saved then Some(Remembered(b, Paid, true).(phase := PaidSeen(b.phase.attempt, b.phase.cancelled)))
      else Some(Concluded(Remembered(b, Paid, false), b.phase.attempt, b.phase.cancelled, None, stored))
    case Finish(delivered, failed, saved, stored) =>
      if !b.phase.PaidSeen? || (delivered && b.quote !in db.deliveries) then None
      else
        var kept := if delivered then Delivered(b, saved) else b;
        var seen := if failed || (delivered && !saved) then None else Some(Paid);
        Some(Concluded(kept, b.phase.attempt, b.phase.cancelled, seen, stored))
    case Receive(hash, saved) =>
      if !Recoverable(b) || b.quote !in db.deliveries then None
      else Some(Delivered(b.(flow := b.flow.(hash := b.flow.hash || hash)), saved))
    case NoteHash(saved) =>
      // the form shows only under a raised guard
      if !Recoverable(b) || b.flow.guard == Clear then None else Some(Saving(b, b.flow.(hash := true), saved))
    case Reload => Some(b.(flow := b.saved, shown := None, poll := None, phase := Idle))
  }

  ghost function Step(j: Joint, e: Event): Option<Joint> {
    match React(j.server.db, j.tab, e)
    case None => None
    case Some(b) => Some(Joint(if e.Server? then P.Run(j.server, e.actions) else j.server, b))
  }

  ghost function Run(j: Joint, events: seq<Event>): Option<Joint>
    decreases |events|
  {
    if events == [] then Some(j)
    else
      match Run(j, events[..|events| - 1])
      case None => None
      case Some(before) => Step(before, events[|events| - 1])
  }

  // A session that has just been given its quote id, at a gateway's start.
  function Opened(q: Id): Joint {
    Joint(P.INITIAL, Browser(q, Flow(Clear, false), Flow(Clear, false), None, None, Idle, false))
  }

  // ------------------------------------------------------------- failing storage

  // A turn in which the answer or its loss concludes the paid attempt.
  predicate Closing(e: Event) {
    e.LoseAnswer? || (e.Answer? && !(e.reply.Report? && e.valid && e.saved))
  }

  // The save that concludes a paid attempt failed: the attempt rejects.
  predicate Lapse(e: Event) {
    Closing(e) && !e.stored
  }

  // The failing saves after which a page that has paid still shows its quote as
  // ready under a clear guard: a lapse; an expired quote that cleared the guard
  // but was not saved, so not shown; and an attempt with its report in hand of
  // which neither the quote read afterwards nor the outcome was saved.
  predicate Slips(b: Browser, e: Event) {
    b.paid &&
    match e
    case LoseAnswer(_) => Lapse(e)
    case Answer(_, _, _, _, _) => Lapse(e)
    case PollArrives(saved) => !saved && b.poll == Some(Expired) && !b.flow.hash && b.shown == Some(Ready)
    case Conclude(saved, stored) => !stored && !(saved && b.phase.Fetched? && b.phase.seen.Some?)
    case Remember(saved, stored) => !saved && !stored
    case _ => false
  }

  // Every save of the turn went through.
  predicate Stores(e: Event) {
    match e
    case PollArrives(saved) => saved
    case Raise(stored) => stored
    case FailSigning(stored) => stored
    case LoseAnswer(stored) => stored
    case Answer(_, _, _, saved, stored) => saved && stored
    case Conclude(saved, stored) => saved && stored
    case Remember(saved, stored) => saved && stored
    case Finish(_, _, saved, stored) => saved && stored
    case Receive(_, saved) => saved
    case NoteHash(saved) => saved
    case _ => true
  }

  ghost predicate Reachable(j: Joint) {
    exists q, events :: Run(Opened(q), events) == Some(j)
  }

  // Reached without a lapse, and without any failing save.
  ghost predicate ReachableUnlapsed(j: Joint) {
    exists q, events :: (forall e :: e in events ==> !Lapse(e)) && Run(Opened(q), events) == Some(j)
  }

  ghost predicate ReachableStored(j: Joint) {
    exists q, events :: (forall e :: e in events ==> Stores(e)) && Run(Opened(q), events) == Some(j)
  }

  // A run in which no turn slips.
  ghost predicate Unslipped(j: Joint, events: seq<Event>)
    decreases |events|
  {
    events == [] ||
    var init := events[..|events| - 1];
    Unslipped(j, init) && Run(j, init).Some? && !Slips(Run(j, init).value.tab, events[|events| - 1])
  }

  ghost predicate ReachableUnslipped(j: Joint) {
    exists q, events :: Unslipped(Opened(q), events) && Run(Opened(q), events) == Some(j)
  }

  // ------------------------------------------------------- what every event keeps

  // Nothing is open on the quote: it expired unpaid, or it is paid for.
  predicate Closed(db: Db, q: Id) {
    QuoteIs(db, q, Expired) || q in db.entitlements
  }

  // This session sent a paid request, and the quote is still open.
  predicate Pending(db: Db, b: Browser) {
    b.paid && !Closed(db, b.quote)
  }

  predicate HoldsAttempt(phase: Phase) {
    !phase.Idle? && !phase.Validating?
  }

  // What a quote state read earlier still says.
  predicate StillTrue(db: Db, q: Id, seen: Option<QuoteState>) {
    (seen == Some(Expired) || seen == Some(Paid)) ==> Closed(db, q)
  }

  predicate TabInv(db: Db, b: Browser) {
    && (b.shown.Some? || b.poll.Some? || (b.phase.Fetched? && b.phase.seen.Some?) ==> b.quote in db.quotes)
    && (!b.phase.Idle? ==> b.flow.guard == Clear && b.poll == None)
    && (HoldsAttempt(b.phase) ==> b.phase.attempt.guard == Started)
    && (!b.phase.Idle? && !b.phase.PaidSeen? ==> b.shown == Some(Ready))
    && (b.phase.Signing? || b.phase.Requested? ==> b.saved == b.phase.attempt)
    && (b.phase.Requested? ==> b.paid)
    && (b.phase.Answered? || (b.phase.Fetched? && !b.phase.cancelled) ==> b.saved.guard == Clear)
    && (b.phase.PaidSeen? ==> b.saved.guard == Clear && b.shown == Some(Paid))
    && (b.phase.Fetched? && !b.phase.cancelled ==> b.phase.seen != Some(Ready))
    && (b.phase.Fetched? ==> StillTrue(db, b.quote, b.phase.seen)) && StillTrue(db, b.quote, b.poll)
    && (b.phase.Answered? || (HoldsAttempt(b.phase) && b.phase.PaidSeen?) ==> Closed(db, b.quote))
    && (b.phase.Fetched? && !b.phase.cancelled ==> Closed(db, b.quote))
  }

  // While a payment of this session is open, page and storage are guarded.
  predicate Held(db: Db, b: Browser) {
    Pending(db, b) ==> b.saved.guard != Clear && (b.phase.Requested? || b.flow.guard != Clear)
  }

  // A session that has paid is in no new attempt, and a page without guard does
  // not show its quote as ready and will not.
  predicate Once(b: Browser) {
    b.paid ==>
      && !b.phase.Validating? && !b.phase.Signing? && !b.phase.Cancelled?
      && !(b.phase.Fetched? && b.phase.cancelled) && !(b.phase.PaidSeen? && b.phase.cancelled)
      && (b.phase.Idle? && b.flow.guard == Clear ==> b.shown != Some(Ready) && b.poll != Some(Ready))
  }

  // The page's guard is not below the stored one.
  predicate InStep(b: Browser) {
    !HoldsAttempt(b.phase) && b.flow.guard == Clear ==> b.saved.guard == Clear
  }

  // What the ledger guarantees of the quote.
  predicate Sound(db: Db, q: Id) {
    && (q in db.deliveries || QuoteIs(db, q, Paid) ==> q in db.entitlements)
    && (q in db.entitlements ==> !QuoteIs(db, q, Ready))
  }

  lemma ReactKeeps(db: Db, b: Browser, e: Event)
    requires TabInv(db, b) && React(db, b, e).Some? && Sound(db, b.quote)
    ensures TabInv(db, React(db, b, e).value)
  {
  }

  // Only a lapse leaves an open payment without guard.
  lemma ReactHolds(db: Db, b: Browser, e: Event)
    requires TabInv(db, b) && Held(db, b) && React(db, b, e).Some? && Sound(db, b.quote) && !Lapse(e)
    ensures Held(db, React(db, b, e).value)
  {
  }

  lemma ReactInStep(db: Db, b: Browser, e: Event)
    requires TabInv(db, b) && InStep(b) && React(db, b, e).Some? && Stores(e)
    ensures InStep(React(db, b, e).value)
  {
  }

  // What a turn leaves when the flow that concludes the attempt is or is not
  // saved: the attempt's flow with the given guard, or what the page had.
  predicate EndsWith(c: Browser, attempt: Flow, guard: Guard, stored: bool, flow: Flow, saved: Flow) {
    && c.phase.Idle?
    && c.flow == (if stored then Flow(guard, attempt.hash) else flow)
    && c.saved == (if stored then Flow(guard, attempt.hash) else saved)
  }

  // Page and storage after each turn. An attempt ends uncertain, unless it was
  // cancelled in the wallet and its quote then read and saved as ready; an
  // expired quote without a noted hash, and a delivered report, clear the guard.
  lemma TurnsMean(db: Db, b: Browser, e: Event)
    requires TabInv(db, b) && React(db, b, e).Some?
    ensures var c := React(db, b, e).value;
            match e
            case Raise(stored) =>
              c.flow == b.flow && (c.phase.Signing? <==> stored)
              && c.saved == if stored then Flow(Started, b.flow.hash) else b.saved
            case FailSigning(stored) => EndsWith(c, b.phase.attempt, Guard.Uncertain, stored, b.flow, b.saved)
            case LoseAnswer(stored) => EndsWith(c, b.phase.attempt, Guard.Uncertain, stored, b.flow, b.saved)
            case Answer(reply, hash, valid, saved, stored) =>
              var noted := Flow(b.flow.guard, b.flow.hash || hash);
              if reply.Report? && valid && saved then c.phase.Answered? && c.flow == noted && c.saved == noted
              else EndsWith(c, b.phase.attempt, Guard.Uncertain, stored, noted, if saved then noted else b.saved)
            case Conclude(saved, stored) =>
              && c.phase.Idle?
              && (stored ==> c.flow == c.saved && c.flow.hash == b.phase.attempt.hash)
              && (stored ==> (c.flow.guard == Clear <==> b.phase.cancelled && saved && b.phase.seen == Some(Ready)))
              && (!stored ==> c.flow == b.flow)
            case Remember(saved, stored) =>
              if saved then c.phase.PaidSeen? && c.flow == b.flow && c.saved == b.flow && c.shown == Some(Paid)
              else EndsWith(c, b.phase.attempt, Guard.Uncertain, stored, b.flow, b.saved)
            case Finish(delivered, failed, saved, stored) =>
              && c.phase.Idle?
              && (!b.phase.cancelled && !failed && (delivered ==> saved) ==> c.flow == b.phase.attempt && c.saved.guard == Clear)
              && ((b.phase.cancelled || failed || (delivered && !saved)) && stored ==>
                    c.flow == c.saved && c.flow.guard == Guard.Uncertain)
            case PollArrives(saved) =>
              && c.flow == Flow(if b.poll == Some(Expired) && !b.flow.hash then Clear else b.flow.guard, b.flow.hash)
              && c.saved == (if saved then c.flow else b.saved) && c.shown == (if saved then b.poll else b.shown)
            case Receive(hash, saved) =>
              c.flow == Flow(Clear, b.flow.hash || hash) && c.saved == if saved then c.flow else b.saved
            case NoteHash(saved) =>
              c.flow == Flow(b.flow.guard, true) && c.saved == if saved then c.flow else b.saved
            case Reload => c.flow == b.saved && c.saved == b.saved && c.shown == None && c.phase.Idle?
            case Pay => c.paid && c.phase.Requested? && c.saved == b.saved
            case _ => c.saved == b.saved && c.paid == b.paid
  {
  }

  lemma ReactOnce(db: Db, b: Browser, e: Event)
    requires TabInv(db, b) && Held(db, b) && Once(b) && React(db, b, e).Some? && Sound(db, b.quote) && !Slips(b, e)
    ensures var c := React(db, b, e).value; Held(db, c) && Once(c) && (b.paid ==> c.paid)
  {
    assert !Lapse(e);
    ReactHolds(db, b, e);
  }

  lemma SigningIsUnpaid(db: Db, b: Browser)
    requires Once(b) && React(db, b, Pay).Some?
    ensures !b.paid
  {
  }

  // A page that slips lets the user press again.
  lemma SlipShowsReady(db: Db, b: Browser, e: Event)
    requires TabInv(db, b) && Once(b) && React(db, b, e).Some? && Slips(b, e)
    ensures var c := React(db, b, e).value;
            c.phase.Idle? && c.flow.guard == Clear && c.poll == None && c.shown == Some(Ready)
  {
  }

  lemma StoringNeverSlips(b: Browser, e: Event)
    requires Stores(e)
    ensures !Slips(b, e)
  {
  }

  // Concluding a paid attempt guards page and storage exactly when it is saved.
  lemma ConcludingHolds(db: Db, b: Browser, e: Event)
    requires TabInv(db, b) && React(db, b, e).Some? && (e.LoseAnswer? || e.Answer?)
    requires Pending(db, b) && Sound(db, b.quote)
    ensures Held(db, React(db, b, e).value) <==> e.stored
    ensures !e.stored ==> var c := React(db, b, e).value;
              c.phase.Idle? && c.flow.guard == Clear && c.poll == None && c.shown == Some(Ready) && Pending(db, c)
  {
  }

  // ------------------------------------------------------------------- resets

  // What the page holds when a turn clears the stored guard.
  datatype Shape =
    | NoReset
    | ByReport
    | ByAnswer(named: bool)
    | ByCancelled(seen: QuoteState)
    | ByPoll(seen: QuoteState)
    | ByDelivery

  function ShapeOf(b: Browser, e: Event): Shape {
    match e
    case Answer(reply, _, _, _, _) => if reply.Report? then ByReport else ByAnswer(reply.Unconfirmed?)
    case Conclude(_, _) =>
      if b.phase.Fetched? && b.phase.cancelled && b.phase.seen.Some? then ByCancelled(b.phase.seen.value) else NoReset
    case Remember(_, _) => ByCancelled(Paid)
    case PollArrives(_) => if b.poll.Some? then ByPoll(b.poll.value) else NoReset
    case Receive(_, _) => ByDelivery
    case _ => NoReset
  }

  // The shapes that justify a clear guard: a report in hand, or a quote seen as
  // expired or paid.
  predicate SafeShape(s: Shape) {
    match s
    case ByReport => true
    case ByDelivery => true
    case ByCancelled(seen) => seen == Expired || seen == Paid
    case ByPoll(seen) => seen == Expired || seen == Paid
    case _ => false
  }

  predicate Resets(db: Db, b: Browser, e: Event) {
    React(db, b, e).Some? && b.saved.guard != Clear && React(db, b, e).value.saved.guard == Clear
  }

  lemma ResetsHaveShapes(db: Db, b: Browser, e: Event)
    requires TabInv(db, b) && Resets(db, b, e) && Sound(db, b.quote)
    ensures ShapeOf(b, e) != NoReset
    ensures SafeShape(ShapeOf(b, e)) ==> Closed(db, b.quote)
    ensures InStep(b) && Stores(e) ==> SafeShape(ShapeOf(b, e)) || ShapeOf(b, e) == ByCancelled(Ready)
  {
  }
}
