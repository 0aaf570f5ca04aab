// What every transaction of the ledger keeps, and what no transaction undoes.

module LedgerInvariant {
  import opened Wrappers
  import opened LedgerRows
  import opened LedgerTransactions

  // ------------------------------------------------------------- foreign keys

  ghost predicate RequestsLinked(db: Db) {
    && (forall r :: r in db.requests ==>
          (db.requests[r].state == RequestReady <==> db.requests[r].quote.Some?)
          && (db.requests[r].lease.Some? ==> db.requests[r].state == Preparing))
    && (forall r, q :: r in db.requests && db.requests[r].quote == Some(q) ==> q in db.quotes && db.quotes[q].request == r)
    && (forall r, s :: r in db.requests && s in db.requests && r != s ==>
          db.requests[r].report != db.requests[s].report
          && (db.requests[r].scope, db.requests[r].key) != (db.requests[s].scope, db.requests[s].key))
  }

  ghost predicate QuotesLinked(db: Db) {
    && (forall q :: q in db.quotes ==>
          db.quotes[q].request in db.requests
          && db.requests[db.quotes[q].request].quote == Some(q)
          && db.requests[db.quotes[q].request].report == db.quotes[q].report
          && db.requests[db.quotes[q].request].scope == db.quotes[q].scope
          && db.quotes[q].report in db.artifacts)
    && (forall p, q :: p in db.quotes && q in db.quotes && p != q ==> db.quotes[p].report != db.quotes[q].report)
  }

  ghost predicate AttemptsLinked(db: Db) {
    forall a :: a in db.attempts ==> db.attempts[a].quote in db.quotes
  }

  // ---------------------------------------------------------------- lockstep

  ghost predicate Active(db: Db, a: Id) {
    a in db.attempts && db.attempts[a].state != Rejected
  }

  ghost function StateFor(state: AttemptState): QuoteState {
    match state
    case Received => PaymentPending
    case Verified => PaymentPending
    case Submitting => PaymentPending
    case Unknown => PaymentUncertain
    case Confirmed => Paid
    case InReview => ManualReview
    case Rejected => Expired
  }

  ghost predicate OneActive(db: Db) {
    forall a, b :: Active(db, a) && Active(db, b) && db.attempts[a].quote == db.attempts[b].quote ==> a == b
  }

  ghost predicate InLockstep(db: Db) {
    forall a :: Active(db, a) ==>
      db.attempts[a].state != Received
      && db.attempts[a].quote in db.quotes
      && db.quotes[db.attempts[a].quote].state == StateFor(db.attempts[a].state)
  }

  ghost predicate HasActive(db: Db, q: Id) {
    exists a :: Active(db, a) && db.attempts[a].quote == q
  }

  ghost predicate BusyQuotesHeld(db: Db) {
    forall q :: q in db.quotes && db.quotes[q].state !in {Ready, Expired} ==> HasActive(db, q)
  }

  // ------------------------------------------------------------ authorizations

  ghost predicate AuthorizationsUnique(db: Db) {
    forall a, b :: a in db.attempts && b in db.attempts && a != b ==>
      db.attempts[a].authorization.identity != db.attempts[b].authorization.identity
      && !SameMerchantNonce(db.attempts[a].authorization.correlation, db.attempts[b].authorization.correlation)
  }

  // -------------------------------------------------------------- entitlements

  ghost predicate EntitlementHolds(db: Db, q: Id)
    requires q in db.entitlements
  {
    var e := db.entitlements[q];
    && q in db.quotes && db.quotes[q].report in db.artifacts
    && e.attempt in db.attempts
    && db.attempts[e.attempt].quote == q
    && db.attempts[e.attempt].state in {Confirmed, InReview}
    && db.attempts[e.attempt].tx == Some(e.receipt.tx)
    && e.report == db.quotes[q].report && e.scope == db.quotes[q].scope
    && e.sha == db.artifacts[db.quotes[q].report].sha
    && ReceiptBinds(ViewOf(db, q), e.attempt, e.receipt)
    && e.retainUntil == e.receipt.confirmedAt + 604_800_000
    && (e.receipt.tx, e.receipt.log) in db.events
    && db.events[(e.receipt.tx, e.receipt.log)] == e.attempt
  }

  ghost predicate EntitlementsHold(db: Db) {
    forall q :: q in db.entitlements ==> EntitlementHolds(db, q)
  }

  ghost predicate ConfirmedEntitled(db: Db) {
    forall a :: a in db.attempts && db.attempts[a].state == Confirmed ==>
      db.attempts[a].quote in db.entitlements && db.entitlements[db.attempts[a].quote].attempt == a
  }

  ghost predicate EventsEntitle(db: Db) {
    forall e :: e in db.events ==>
      db.events[e] in db.attempts
      && var q := db.attempts[db.events[e]].quote;
         q in db.entitlements && db.entitlements[q].attempt == db.events[e]
         && (db.entitlements[q].receipt.tx, db.entitlements[q].receipt.log) == e
  }

  ghost predicate DeliveriesEntitled(db: Db) {
    forall i :: 0 <= i < |db.deliveries| ==> db.deliveries[i] in db.entitlements
  }

  // -------------------------------------------------------------------- grants

  predicate SubmittedIn(db: Db, a: Id) {
    a in db.attempts && Submitted(db.attempts[a].state)
  }

  ghost predicate ConsumptionsHold(db: Db) {
    && (forall g :: g in db.consumptions ==> SubmittedIn(db, db.consumptions[g].attempt))
    && (forall g, h :: g in db.consumptions && h in db.consumptions && g != h ==>
          db.consumptions[g].attempt != db.consumptions[h].attempt && db.consumptions[g].grantId != db.consumptions[h].grantId)
  }

  ghost predicate ReservationRowsHold(db: Db) {
    && (forall i :: 0 <= i < |db.reservations| ==>
          SubmittedIn(db, db.reservations[i].attempt) && db.reservations[i].amount == AMOUNT
          && db.reservations[i].grant in db.authorities)
    && (forall i, j :: 0 <= i < j < |db.reservations| ==>
          db.reservations[i].attempt != db.reservations[j].attempt
          && (db.reservations[i].grant == db.reservations[j].grant ==> db.reservations[i].payer != db.reservations[j].payer))
  }

  ghost predicate BudgetKept(db: Db, grant: Id) {
    var used := ReservationsOf(db.reservations, grant);
    && (forall i :: 0 <= i < |used| ==> used[i].ordinal == i + 1)
    && (grant in db.authorities ==>
          |used| <= db.authorities[grant].maxSubmissions && TotalReserved(used) <= db.authorities[grant].maxTotal)
    && (grant !in db.authorities ==> used == [])
  }

  ghost predicate BudgetsKept(db: Db) {
    forall grant: Id :: BudgetKept(db, grant)
  }

  // Every submission was paid for: a merchant authorization, a spent grant, or
  // a reservation under a signed grant.
  ghost predicate Funded(db: Db, a: Id)
    requires a in db.attempts
  {
    var c := db.attempts[a].authorization.correlation;
    || c.mode == Merchant
    || (GrantNamed(c) && !c.signedGrant && c.grant.digest in db.consumptions
        && db.consumptions[c.grant.digest] == Consumption(c.grantId.value, a))
    || (GrantNamed(c) && c.signedGrant
        && exists i :: 0 <= i < |db.reservations| && db.reservations[i].grant == c.grant.digest && db.reservations[i].attempt == a)
  }

  ghost predicate SubmissionsFunded(db: Db) {
    forall a :: SubmittedIn(db, a) ==> Funded(db, a)
  }

  // ------------------------------------------------------------------ storage

  ghost predicate StorageSafe(db: Db) {
    forall q :: q in db.quotes && db.quotes[q].report in db.artifacts ==>
      (db.artifacts[db.quotes[q].report].storage == Deleted ==> db.quotes[q].state == Expired)
      && (db.artifacts[db.quotes[q].report].storage == Recovery ==> q in db.entitlements)
  }

  ghost predicate SlotsKept(db: Db) {
    |LiveLeases(db)| <= BUILD_SLOTS
  }

  // The rules by name: a proof brings in only the rules it names.
  datatype Rule =
    | RequestRule | QuoteRule | AttemptRule
    | OneActiveRule | LockstepRule | HeldRule | AuthorizationRule
    | EntitlementRule | ConfirmedRule | EventRule | DeliveryRule
    | ConsumptionRule | ReservationRule | BudgetRule | FundingRule
    | StorageRule | SlotRule

  ghost predicate Keeps(db: Db, rule: Rule) {
    match rule
    case RequestRule => RequestsLinked(db)
    case QuoteRule => QuotesLinked(db)
    case AttemptRule => AttemptsLinked(db)
    case OneActiveRule => OneActive(db)
    case LockstepRule => InLockstep(db)
    case HeldRule => BusyQuotesHeld(db)
    case AuthorizationRule => AuthorizationsUnique(db)
    case EntitlementRule => EntitlementsHold(db)
    case ConfirmedRule => ConfirmedEntitled(db)
    case EventRule => EventsEntitle(db)
    case DeliveryRule => DeliveriesEntitled(db)
    case ConsumptionRule => ConsumptionsHold(db)
    case ReservationRule => ReservationRowsHold(db)
    case BudgetRule => BudgetsKept(db)
    case FundingRule => SubmissionsFunded(db)
    case StorageRule => StorageSafe(db)
    case SlotRule => SlotsKept(db)
  }

  datatype Group = Core | Paying | Spending

  ghost function GroupOf(rule: Rule): Group {
    match rule
    case EntitlementRule => Paying
    case ConfirmedRule => Paying
    case EventRule => Paying
    case DeliveryRule => Paying
    case StorageRule => Paying
    case ConsumptionRule => Spending
    case ReservationRule => Spending
    case BudgetRule => Spending
    case FundingRule => Spending
    case _ => Core
  }

  ghost predicate KeepsAll(db: Db, group: Group) {
    forall rule: Rule :: GroupOf(rule) == group ==> Keeps(db, rule)
  }

  ghost predicate Inv(db: Db) {
    KeepsAll(db, Core) && KeepsAll(db, Paying) && KeepsAll(db, Spending)
  }

  // ---------------------------------------------------- what is never undone

  ghost predicate RequestKept(r: RequestRow, s: RequestRow) {
    && r.scope == s.scope && r.key == s.key && r.body == s.body && r.report == s.report
    && (r.state != Preparing ==> s == r)
    && (r.lease.Some? && s.state == Preparing ==> s.lease == r.lease)
  }

  ghost predicate QuoteKept(p: QuoteRow, q: QuoteRow) {
    && p.request == q.request && p.scope == q.scope && p.report == q.report
    && p.payTo == q.payTo && p.payer == q.payer && p.expires == q.expires
    && (p.state == Expired ==> q.state == Expired)
    && (p.state == Paid || p.state == ManualReview ==> q.state == Paid || q.state == ManualReview)
    && (p.state == PaymentUncertain ==> q.state == PaymentUncertain || q.state == Paid || q.state == ManualReview)
  }

  ghost predicate AttemptKept(a: AttemptRow, b: AttemptRow) {
    && a.quote == b.quote && a.authorization == b.authorization
    && (a.state == Rejected ==> b.state == Rejected)
    && (Submitted(a.state) ==> Submitted(b.state))
    && (a.state != Verified ==> b.state != Verified)
    && (a.state in {Confirmed, InReview} ==> b.state in {Confirmed, InReview})
    && (a.tx.Some? ==> b.tx == a.tx)
  }

  ghost predicate ArtifactKept(a: ArtifactRow, b: ArtifactRow) {
    a.scope == b.scope && a.sha == b.sha && (a.storage == Deleted ==> b.storage == Deleted)
  }

  // A confirmed payment that was put under review stays there.
  ghost predicate ReviewsLast(d: Db, e: Db) {
    forall a :: AttemptIs(d, a, InReview) && d.attempts[a].quote in d.entitlements ==> AttemptIs(e, a, InReview)
  }

  ghost predicate Extends(d: Db, e: Db) {
    Grows(d, e) && ReviewsLast(d, e)
  }

  ghost predicate Grows(d: Db, e: Db) {
    && d.now <= e.now
    && (forall r :: r in d.requests ==> r in e.requests && RequestKept(d.requests[r], e.requests[r]))
    && (forall q :: q in d.quotes ==> q in e.quotes && QuoteKept(d.quotes[q], e.quotes[q]))
    && (forall a :: a in d.attempts ==> a in e.attempts && AttemptKept(d.attempts[a], e.attempts[a]))
    && (forall r :: r in d.artifacts ==> r in e.artifacts && ArtifactKept(d.artifacts[r], e.artifacts[r]))
    && (forall q :: q in d.entitlements ==> q in e.entitlements && e.entitlements[q] == d.entitlements[q])
    && (forall t :: t in d.events ==> t in e.events && e.events[t] == d.events[t])
    && (forall g :: g in d.consumptions ==> g in e.consumptions && e.consumptions[g] == d.consumptions[g])
    && (forall g :: g in d.authorities ==> g in e.authorities && e.authorities[g] == d.authorities[g])
    && d.reservations <= e.reservations && d.deliveries <= e.deliveries
  }

  lemma ExtendsReflexive(db: Db)
    ensures Extends(db, db)
  {
  }

  lemma ExtendsTransitive(c: Db, d: Db, e: Db)
    requires Extends(c, d) && Extends(d, e)
    ensures Extends(c, e)
  {
    forall a | AttemptIs(c, a, InReview) && c.attempts[a].quote in c.entitlements
      ensures AttemptIs(e, a, InReview)
    {
      assert AttemptIs(d, a, InReview) && d.attempts[a].quote in d.entitlements;
    }
  }

  lemma EmptyInv()
    ensures Inv(EMPTY)
  {
  }
}
