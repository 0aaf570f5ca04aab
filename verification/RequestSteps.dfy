// Report requests: created once per key, leased to one builder each, and
// published as one quote or not at all.

module RequestSteps {
  import opened Wrappers
  import opened LedgerRows
  import opened LedgerTransactions
  import opened LedgerInvariant
  import opened LedgerSteps

  // Only requests change: rows are added or kept, and a changed row stays
  // without a quote.
  ghost predicate RequestMove(d: Db, e: Db) {
    && e == d.(requests := e.requests)
    && (forall r :: r in d.requests ==> r in e.requests && RequestKept(d.requests[r], e.requests[r]) && e.requests[r].quote == d.requests[r].quote)
    && RequestsLinked(e) && SlotsKept(e)
  }

  lemma RequestMoveSafe(d: Db, e: Db)
    requires Inv(d) && RequestMove(d, e)
    ensures Safe(d, e)
  {
    PayingFrame(d, e);
    SpendingFrame(d, e);
    forall rule: Rule | GroupOf(rule) == Core
      ensures Keeps(e, rule)
    {
      assert Keeps(d, rule);
      match rule
      case RequestRule =>
      case QuoteRule =>
      case AttemptRule =>
      case OneActiveRule => OneActiveFrame(d, e);
      case LockstepRule => LockstepFrame(d, e);
      case HeldRule => HeldFrame(d, e);
      case AuthorizationRule =>
      case SlotRule =>
    }
  }

  // The key of a request finds it again.
  lemma CreateRequestCommits(db: Db, id: Id, scope: Id, key: Id, body: Body, report: Id, withinBudget: bool)
    requires RequestsLinked(db)
    ensures var tx := CreateRequest(db, id, scope, key, body, report, withinBudget);
            match tx
            case Ok((e, r)) =>
              r in e.requests && e.requests[r].scope == scope && e.requests[r].key == key && e.requests[r].body == body
              && (r in db.requests ==> e == db)
              && (r !in db.requests ==>
                    r == id && e == db.(requests := db.requests[id := RequestRow(scope, key, body, report, Preparing, None, None)])
                    && forall s :: s in db.requests ==> (db.requests[s].scope, db.requests[s].key) != (scope, key) && db.requests[s].report != report)
            case Err(error) => error in {IdempotencyConflict, UniqueViolation, RateLimited}
  {
  }

  lemma CreateRequestSafe(db: Db, id: Id, scope: Id, key: Id, body: Body, report: Id, withinBudget: bool)
    requires Inv(db)
    ensures Safe(db, After(db, CreateRequest(db, id, scope, key, body, report, withinBudget)))
  {
    assert Keeps(db, RequestRule) && Keeps(db, SlotRule);
    CreateRequestCommits(db, id, scope, key, body, report, withinBudget);
    var e := After(db, CreateRequest(db, id, scope, key, body, report, withinBudget));
    if e != db {
      assert LiveLeases(e) == LiveLeases(db);
      RequestMoveSafe(db, e);
    } else {
      ExtendsReflexive(db);
    }
  }

  lemma SweepLeasesKeeps(db: Db)
    requires RequestsLinked(db) && SlotsKept(db)
    ensures RequestsLinked(SweepLeases(db)) && LiveLeases(SweepLeases(db)) == LiveLeases(db)
    ensures RequestMove(db, SweepLeases(db))
  {
    SweptLeases(db);
    SweptLinks(db);
  }

  // Only leases that ran out are given up.
  lemma SweptLeases(db: Db)
    ensures LiveLeases(SweepLeases(db)) == LiveLeases(db)
  {
  }

  lemma SweptLinks(db: Db)
    requires RequestsLinked(db)
    ensures RequestsLinked(SweepLeases(db))
  {
    var e := SweepLeases(db);
    forall r, q | r in e.requests && e.requests[r].quote == Some(q)
      ensures q in e.quotes && e.quotes[q].request == r
    {
      assert db.requests[r].quote == Some(q);
    }
  }

  lemma ClaimBuildSafe(db: Db, pick: Id)
    requires Inv(db)
    ensures Safe(db, After(db, ClaimBuild(db, pick)))
  {
    assert Keeps(db, RequestRule) && Keeps(db, SlotRule);
    SweepLeasesKeeps(db);
    var swept := SweepLeases(db);
    RequestMoveSafe(db, swept);
    var e := After(db, ClaimBuild(db, pick));
    if e != swept {
      LeaseAdds(swept, e, pick);
      RequestMoveSafe(swept, e);
      ExtendsTransitive(db, swept, e);
    }
  }

  lemma LeaseAdds(d: Db, e: Db, pick: Id)
    requires RequestsLinked(d) && |LiveLeases(d)| < BUILD_SLOTS
    requires pick in d.requests && d.requests[pick].state == Preparing && d.requests[pick].lease.None?
    requires e == d.(requests := d.requests[pick := d.requests[pick].(lease := Some(d.now + LEASE))])
    ensures RequestMove(d, e)
  {
    assert LiveLeases(e) == LiveLeases(d) + {pick};
    forall r, q | r in e.requests && e.requests[r].quote == Some(q)
      ensures q in e.quotes && e.quotes[q].request == r
    {
      assert d.requests[r].quote == Some(q);
    }
  }

  lemma RejectBuildSafe(db: Db, request: Id, rejected: bool)
    requires Inv(db)
    ensures Safe(db, After(db, RejectBuild(db, request, rejected)))
  {
    assert Keeps(db, RequestRule) && Keeps(db, SlotRule);
    var e := After(db, RejectBuild(db, request, rejected));
    if e != db {
      Subset(LiveLeases(e), LiveLeases(db));
      assert e.requests[request].quote.None?;
      RequestMoveSafe(db, e);
    } else {
      ExtendsReflexive(db);
    }
  }

  // ------------------------------------------------------------------ publish

  ghost predicate MayPublish(d: Db, id: Id, claimed: RequestRow, report: Id, quote: Id) {
    && id in d.requests && d.requests[id].state == Preparing
    && report !in d.artifacts && quote !in d.quotes
    && (forall q :: q in d.quotes ==> d.quotes[q].request != id && d.quotes[q].report != report)
    && claimed.report == report && d.requests[id].report == report && d.requests[id].scope == claimed.scope
  }

  function Published(d: Db, id: Id, claimed: RequestRow, sha: Id, quote: Id, payTo: Id, expires: Time): Db
    requires id in d.requests
  {
    d.(artifacts := d.artifacts[claimed.report := ArtifactRow(claimed.scope, sha, Available)],
       quotes := d.quotes[quote := QuoteRow(id, claimed.scope, claimed.report, payTo, claimed.body.payer, expires, Ready)],
       requests := d.requests[id := d.requests[id].(state := RequestReady, quote := Some(quote), lease := None)])
  }

  // Only a request that is still PREPARING is published, so a build swept or
  // rejected in the meantime publishes nothing.
  lemma PublishCommits(db: Db, id: Id, claimed: RequestRow, report: Id, sha: Id, quote: Id, payTo: Id, expires: Time)
    ensures var tx := Publish(db, id, claimed, report, sha, quote, payTo, expires);
            tx.Ok? ==> MayPublish(db, id, claimed, report, quote)
                       && tx.value == (Published(db, id, claimed, sha, quote, payTo, expires), quote)
  {
  }

  lemma PublishedLinks(d: Db, id: Id, claimed: RequestRow, sha: Id, quote: Id, payTo: Id, expires: Time)
    requires RequestsLinked(d) && QuotesLinked(d) && SlotsKept(d)
    requires MayPublish(d, id, claimed, claimed.report, quote)
    ensures var e := Published(d, id, claimed, sha, quote, payTo, expires);
            RequestsLinked(e) && QuotesLinked(e) && SlotsKept(e)
  {
    var e := Published(d, id, claimed, sha, quote, payTo, expires);
    Subset(LiveLeases(e), LiveLeases(d));
    forall r, q | r in e.requests && e.requests[r].quote == Some(q)
      ensures q in e.quotes && e.quotes[q].request == r
    {
      if r != id {
        assert d.requests[r].quote == Some(q);
      }
    }
  }

  // Quotes and artifacts are added; the ones already there do not change.
  ghost predicate QuotesGrow(d: Db, e: Db) {
    && e.attempts == d.attempts && e.events == d.events && e.entitlements == d.entitlements && e.deliveries == d.deliveries
    && (forall q :: q in d.quotes ==> q in e.quotes && e.quotes[q] == d.quotes[q])
    && (forall q :: q in e.quotes && q !in d.quotes ==> e.quotes[q].state == Ready)
    && (forall r :: r in d.artifacts ==> r in e.artifacts && e.artifacts[r] == d.artifacts[r])
    && (forall r :: r in e.artifacts && r !in d.artifacts ==> e.artifacts[r].storage == Available)
  }

  lemma GrowthPaying(d: Db, e: Db)
    requires KeepsAll(d, Paying) && QuotesGrow(d, e) && QuotesLinked(d)
    requires forall q :: q in e.quotes && q !in d.quotes ==> e.quotes[q].report !in d.artifacts
    ensures KeepsAll(e, Paying)
  {
    forall rule: Rule | GroupOf(rule) == Paying
      ensures Keeps(e, rule)
    {
      assert Keeps(d, rule);
      match rule
      case EntitlementRule => GrowthEntitlements(d, e);
      case ConfirmedRule =>
      case EventRule =>
      case DeliveryRule =>
      case StorageRule =>
    }
  }

  lemma GrowthEntitlements(d: Db, e: Db)
    requires EntitlementsHold(d) && QuotesGrow(d, e)
    ensures EntitlementsHold(e)
  {
    forall q | q in e.entitlements
      ensures EntitlementHolds(e, q)
    {
      assert EntitlementHolds(d, q);
    }
  }

  lemma GrowthHeld(d: Db, e: Db)
    requires BusyQuotesHeld(d) && QuotesGrow(d, e)
    ensures BusyQuotesHeld(e)
  {
    forall q | q in e.quotes && e.quotes[q].state !in {Ready, Expired}
      ensures HasActive(e, q)
    {
      HolderKept(d, e, q);
    }
  }

  lemma PublishSafe(db: Db, id: Id, claimed: RequestRow, report: Id, sha: Id, quote: Id, payTo: Id, expires: Time)
    requires Inv(db)
    ensures Safe(db, After(db, Publish(db, id, claimed, report, sha, quote, payTo, expires)))
  {
    PublishCommits(db, id, claimed, report, sha, quote, payTo, expires);
    if Publish(db, id, claimed, report, sha, quote, payTo, expires).Ok? {
      PublishedSafe(db, id, claimed, sha, quote, payTo, expires);
    } else {
      ExtendsReflexive(db);
    }
  }

  lemma PublishedSafe(d: Db, id: Id, claimed: RequestRow, sha: Id, quote: Id, payTo: Id, expires: Time)
    requires Inv(d) && MayPublish(d, id, claimed, claimed.report, quote)
    ensures Safe(d, Published(d, id, claimed, sha, quote, payTo, expires))
  {
    var e := Published(d, id, claimed, sha, quote, payTo, expires);
    assert QuotesGrow(d, e);
    SpendingFrame(d, e);
    assert Keeps(d, QuoteRule);
    GrowthPaying(d, e);
    forall rule: Rule | GroupOf(rule) == Core
      ensures Keeps(e, rule)
    {
      assert Keeps(d, RequestRule) && Keeps(d, QuoteRule) && Keeps(d, SlotRule);
      assert Keeps(d, rule);
      match rule
      case RequestRule => PublishedLinks(d, id, claimed, sha, quote, payTo, expires);
      case QuoteRule => PublishedLinks(d, id, claimed, sha, quote, payTo, expires);
      case SlotRule => PublishedLinks(d, id, claimed, sha, quote, payTo, expires);
      case AttemptRule =>
      case OneActiveRule => OneActiveFrame(d, e);
      case LockstepRule => ExpiryLockstep(d, e);
      case HeldRule => GrowthHeld(d, e);
      case AuthorizationRule =>
    }
    PublishedExtends(d, id, claimed, sha, quote, payTo, expires);
  }

  lemma PublishedExtends(d: Db, id: Id, claimed: RequestRow, sha: Id, quote: Id, payTo: Id, expires: Time)
    requires MayPublish(d, id, claimed, claimed.report, quote)
    ensures Extends(d, Published(d, id, claimed, sha, quote, payTo, expires))
  {
  }
}
