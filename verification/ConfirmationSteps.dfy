// Confirming a payment, delivering the report and cleaning up: what happens
// after a submission, or to a quote that never had one.

module ConfirmationSteps {
  import opened Wrappers
  import opened LedgerRows
  import opened LedgerTransactions
  import opened LedgerInvariant
  import opened LedgerSteps

  // ------------------------------------------------------------------ confirm

  function Paying(view: QuoteView, a: Id, r: Receipt): Entitlement {
    Entitlement(a, view.report, view.scope, view.sha, r, r.confirmedAt + RETENTION)
  }

  // The chain event and the entitlement are inserted.
  function Bound(db: Db, view: QuoteView, a: Id, r: Receipt): Db {
    db.(events := db.events[(r.tx, r.log) := a], entitlements := db.entitlements[view.id := Paying(view, a, r)])
  }

  function ConfirmedRow(db: Db, a: Id, r: Receipt): AttemptRow
    requires a in db.attempts
  {
    db.attempts[a].(state := Confirmed, tx := Some(r.tx), updated := db.now)
  }

  ghost predicate Fresh(db: Db, view: QuoteView, a: Id, r: Receipt) {
    && (r.tx, r.log) !in db.events && (forall e :: e in db.events ==> db.events[e] != a)
    && view.id !in db.entitlements && (forall q :: q in db.entitlements ==> db.entitlements[q].attempt != a)
  }

  ghost predicate MayConfirm(db: Db, view: QuoteView, a: Id, r: Receipt) {
    && a in db.attempts && db.attempts[a].state in {Submitting, Unknown, InReview}
    && ReceiptBinds(view, a, r) && Fresh(db, view, a, r)
    && KnownTerms(db, view) && db.attempts[a].quote == view.id
    && (db.attempts[a].tx.Some? ==> db.attempts[a].tx == Some(r.tx))
  }

  lemma ConfirmCommits(db: Db, view: QuoteView, a: Id, r: Receipt)
    requires MayConfirm(db, view, a, r)
    requires db.quotes[view.id].state == StateFor(db.attempts[a].state)
    ensures Confirm(db, view, a, r) == Ok((Restate(Bound(db, view, a, r), a, ConfirmedRow(db, a, r), Paid), ()))
  {
    var bound := Bound(db, view, a, r);
    assert SetAttempt(bound, a, Confirmed, Some(r.tx)) == Ok(bound.(attempts := db.attempts[a := ConfirmedRow(db, a, r)]));
  }

  // Confirm commits exactly when the receipt binds, its chain event and the
  // entitlement are new, and the recorded transaction is the receipt's. No
  // transition trigger fires on a ledger in lockstep.
  lemma ConfirmDecides(db: Db, view: QuoteView, a: Id, r: Receipt)
    requires a in db.attempts && Submitted(db.attempts[a].state) && db.attempts[a].state != Confirmed
    requires db.attempts[a].quote in db.quotes
    requires db.quotes[db.attempts[a].quote].state == StateFor(db.attempts[a].state)
    ensures Confirm(db, view, a, r).Ok? <==> MayConfirm(db, view, a, r)
    ensures Confirm(db, view, a, r).Err? ==> Confirm(db, view, a, r).error != TransitionTrigger
  {
    if MayConfirm(db, view, a, r) {
      ConfirmCommits(db, view, a, r);
    }
  }

  lemma EntitlementsBind(d: Db, view: QuoteView, a: Id, r: Receipt)
    requires EntitlementsHold(d) && OneActive(d) && MayConfirm(d, view, a, r)
    requires view.id in d.quotes && d.quotes[view.id].report in d.artifacts && view == ViewOf(d, view.id)
    ensures EntitlementsHold(Restate(Bound(d, view, a, r), a, ConfirmedRow(d, a, r), Paid))
  {
    var e := Restate(Bound(d, view, a, r), a, ConfirmedRow(d, a, r), Paid);
    forall q | q in e.entitlements
      ensures EntitlementHolds(e, q)
    {
      if q != view.id {
        assert EntitlementHolds(d, q);
      }
    }
  }

  lemma EventsBind(d: Db, view: QuoteView, a: Id, r: Receipt)
    requires EventsEntitle(d) && MayConfirm(d, view, a, r) && view.id in d.quotes
    ensures EventsEntitle(Restate(Bound(d, view, a, r), a, ConfirmedRow(d, a, r), Paid))
  {
  }

  lemma ConfirmedBind(d: Db, view: QuoteView, a: Id, r: Receipt)
    requires ConfirmedEntitled(d) && DeliveriesEntitled(d) && MayConfirm(d, view, a, r) && view.id in d.quotes
    ensures var e := Restate(Bound(d, view, a, r), a, ConfirmedRow(d, a, r), Paid);
            ConfirmedEntitled(e) && DeliveriesEntitled(e)
  {
  }

  lemma StorageBinds(d: Db, view: QuoteView, a: Id, r: Receipt)
    requires StorageSafe(d) && MayConfirm(d, view, a, r) && view.id in d.quotes && d.quotes[view.id].state != Expired
    ensures StorageSafe(Restate(Bound(d, view, a, r), a, ConfirmedRow(d, a, r), Paid))
  {
  }

  lemma PayingBinds(d: Db, view: QuoteView, a: Id, r: Receipt)
    requires Inv(d) && MayConfirm(d, view, a, r) && view.id in d.quotes && d.quotes[view.id].report in d.artifacts
    requires view == ViewOf(d, view.id) && d.quotes[view.id].state != Expired
    ensures KeepsAll(Restate(Bound(d, view, a, r), a, ConfirmedRow(d, a, r), Paid), Group.Paying)
  {
    var e := Restate(Bound(d, view, a, r), a, ConfirmedRow(d, a, r), Paid);
    assert Keeps(d, OneActiveRule);
    forall rule: Rule | GroupOf(rule) == Group.Paying
      ensures Keeps(e, rule)
    {
      assert Keeps(d, OneActiveRule) && Keeps(d, ConfirmedRule) && Keeps(d, DeliveryRule);
      assert Keeps(d, rule);
      match rule
      case EntitlementRule => EntitlementsBind(d, view, a, r);
      case ConfirmedRule => ConfirmedBind(d, view, a, r);
      case DeliveryRule => ConfirmedBind(d, view, a, r);
      case EventRule => EventsBind(d, view, a, r);
      case StorageRule => StorageBinds(d, view, a, r);
    }
  }

  lemma ConfirmMoves(d: Db, view: QuoteView, a: Id, r: Receipt)
    requires MayConfirm(d, view, a, r) && view.id in d.quotes && d.quotes[view.id].state == StateFor(d.attempts[a].state)
    ensures var b := Bound(d, view, a, r);
            Legal(b, a, ConfirmedRow(d, a, r), Paid) && PaymentMove(b, Restate(b, a, ConfirmedRow(d, a, r), Paid))
            && forall x :: SubmittedIn(Restate(b, a, ConfirmedRow(d, a, r), Paid), x) ==> SubmittedIn(b, x)
  {
  }

  lemma ConfirmExtends(d: Db, view: QuoteView, a: Id, r: Receipt)
    requires MayConfirm(d, view, a, r) && view.id in d.quotes
    requires var b := Bound(d, view, a, r); PaymentMove(b, Restate(b, a, ConfirmedRow(d, a, r), Paid))
    ensures Extends(d, Restate(Bound(d, view, a, r), a, ConfirmedRow(d, a, r), Paid))
  {
    var b := Bound(d, view, a, r);
    var e := Restate(b, a, ConfirmedRow(d, a, r), Paid);
    MoveGrows(b, e);
    forall x | AttemptIs(d, x, InReview) && d.attempts[x].quote in d.entitlements
      ensures AttemptIs(e, x, InReview)
    {
      assert x != a;
    }
  }

  lemma ConfirmSafe(db: Db, view: QuoteView, a: Id, r: Receipt)
    requires Inv(db) && SubmittedIn(db, a)
    requires view.id in db.quotes && db.quotes[view.id].report in db.artifacts && view == ViewOf(db, view.id)
    ensures Safe(db, After(db, Confirm(db, view, a, r)))
  {
    PairedIn(db, db.attempts[a].quote, a);
    if db.attempts[a].state != Confirmed && Confirm(db, view, a, r).Ok? {
      ConfirmDecides(db, view, a, r);
      ConfirmCommits(db, view, a, r);
      var b := Bound(db, view, a, r);
      CoreFrame(db, b);
      SpendingFrame(db, b);
      ConfirmMoves(db, view, a, r);
      CoreMoves(b, a, ConfirmedRow(db, a, r), Paid);
      SpendingMoves(b, Restate(b, a, ConfirmedRow(db, a, r), Paid));
      PayingBinds(db, view, a, r);
      ConfirmExtends(db, view, a, r);
    } else {
      ExtendsReflexive(db);
    }
  }

  // ------------------------------------------------- delivery, grants and time

  lemma RecordDeliverySafe(db: Db, view: QuoteView)
    requires Inv(db)
    ensures Safe(db, After(db, RecordDelivery(db, view)))
  {
    var e := After(db, RecordDelivery(db, view));
    if e == db {
      ExtendsReflexive(db);
    } else {
      DeliveredSafe(db, e, view.id);
    }
  }

  lemma DeliveredSafe(db: Db, e: Db, q: Id)
    requires Inv(db) && q in db.entitlements && e == db.(deliveries := db.deliveries + [q])
    ensures Safe(db, e)
  {
    CoreFrame(db, e);
    SpendingFrame(db, e);
    DeliveredPaying(db, e, q);
  }

  lemma DeliveredPaying(db: Db, e: Db, q: Id)
    requires KeepsAll(db, Group.Paying) && q in db.entitlements && e == db.(deliveries := db.deliveries + [q])
    ensures KeepsAll(e, Group.Paying)
  {
    forall rule: Rule | GroupOf(rule) == Group.Paying
      ensures Keeps(e, rule)
    {
      assert Keeps(db, rule);
      match rule
      case EntitlementRule => EntitlementsFrame(db, e);
      case ConfirmedRule =>
      case EventRule =>
      case DeliveryRule =>
      case StorageRule =>
    }
  }

  lemma ActivateGrantSafe(db: Db, grant: Id, authority: Authority)
    requires Inv(db)
    ensures Safe(db, After(db, ActivateGrant(db, grant, authority)))
  {
    ActivationSafe(db, After(db, ActivateGrant(db, grant, authority)), grant);
  }

  lemma ActivationSafe(d: Db, e: Db, grant: Id)
    requires Inv(d)
    requires e == d || (grant !in d.authorities && grant in e.authorities && e == d.(authorities := d.authorities[grant := e.authorities[grant]]))
    ensures Safe(d, e)
  {
    CoreFrame(d, e);
    PayingFrame(d, e);
    forall rule: Rule | GroupOf(rule) == Spending
      ensures Keeps(e, rule)
    {
      assert Keeps(d, rule);
      match rule
      case ConsumptionRule => assert forall a :: SubmittedIn(e, a) <==> SubmittedIn(d, a);
      case ReservationRule => assert forall a :: SubmittedIn(e, a) <==> SubmittedIn(d, a);
      case BudgetRule => ActivationBudgets(d, e, grant);
      case FundingRule => FundingFrame(d, e);
    }
  }

  lemma ActivationBudgets(d: Db, e: Db, grant: Id)
    requires BudgetsKept(d) && e.reservations == d.reservations
    requires forall g :: g in d.authorities ==> g in e.authorities && e.authorities[g] == d.authorities[g]
    requires forall g :: g in e.authorities && g != grant ==> g in d.authorities
    ensures BudgetsKept(e)
  {
    forall g: Id
      ensures BudgetKept(e, g)
    {
      assert BudgetKept(d, g);
      if g !in d.authorities {
        assert ReservationsOf(d.reservations, g) == [];
      }
    }
  }

  lemma TickSafe(db: Db, elapsed: nat)
    requires Inv(db)
    ensures Safe(db, db.(now := db.now + elapsed))
  {
    var e := db.(now := db.now + elapsed);
    CoreFrame(db, e);
    PayingFrame(db, e);
    SpendingFrame(db, e);
  }

  // ------------------------------------------------------------------ storage

  // A quote with an entitlement is paid for or under review, never expired.
  lemma EntitledNotExpired(db: Db, q: Id)
    requires Inv(db) && q in db.entitlements
    ensures q in db.quotes && db.quotes[q].state in {Paid, ManualReview}
    ensures db.quotes[q].report in db.artifacts && db.artifacts[db.quotes[q].report].storage != Deleted
  {
    assert Keeps(db, EntitlementRule) && EntitlementHolds(db, q);
    assert Keeps(db, LockstepRule) && Active(db, db.entitlements[q].attempt);
    assert Keeps(db, StorageRule);
  }

  lemma StorageSetSafe(db: Db, q: Id, storage: StorageState)
    requires Inv(db) && q in db.quotes && db.quotes[q].report in db.artifacts
    requires if storage == Deleted then db.quotes[q].state == Expired else q in db.entitlements
    ensures Safe(db, SetStorage(db, db.quotes[q].report, storage))
  {
    var report := db.quotes[q].report;
    var e := SetStorage(db, report, storage);
    if storage != Deleted {
      EntitledNotExpired(db, q);
    }
    SpendingFrame(db, e);
    forall rule: Rule | GroupOf(rule) == Core
      ensures Keeps(e, rule)
    {
      assert Keeps(db, rule);
      match rule
      case RequestRule =>
      case QuoteRule =>
      case AttemptRule =>
      case OneActiveRule => OneActiveFrame(db, e);
      case LockstepRule => LockstepFrame(db, e);
      case HeldRule => HeldFrame(db, e);
      case AuthorizationRule =>
      case SlotRule => SlotsFrame(db, e);
    }
    forall rule: Rule | GroupOf(rule) == Group.Paying
      ensures Keeps(e, rule)
    {
      assert Keeps(db, QuoteRule);
      assert Keeps(db, rule);
      match rule
      case EntitlementRule => RestoredEntitlements(db, e, report);
      case ConfirmedRule =>
      case DeliveryRule =>
      case EventRule =>
      case StorageRule =>
    }
  }

  lemma RestoredEntitlements(d: Db, e: Db, report: Id)
    requires EntitlementsHold(d) && report in d.artifacts
    requires exists storage :: e == SetStorage(d, report, storage)
    ensures EntitlementsHold(e)
  {
    forall q | q in e.entitlements
      ensures EntitlementHolds(e, q)
    {
      assert EntitlementHolds(d, q);
    }
  }

  lemma {:induction false} RemoveUnpaidSafe(db: Db, rows: seq<Id>)
    requires Inv(db)
    ensures Safe(db, RemoveUnpaid(db, rows))
    decreases |rows|
  {
    if rows == [] {
      ExtendsReflexive(db);
    } else if Removable(db, rows[0]) {
      var next := SetStorage(db, db.quotes[rows[0]].report, Deleted);
      StorageSetSafe(db, rows[0], Deleted);
      RemoveUnpaidSafe(next, rows[1..]);
      ExtendsTransitive(db, next, RemoveUnpaid(db, rows));
    } else {
      RemoveUnpaidSafe(db, rows[1..]);
    }
  }

  lemma SweepExpiredSafe(db: Db)
    requires Inv(db)
    ensures Safe(db, SweepExpired(db))
  {
    QuoteExpiresSafe(db, SweepExpired(db));
  }
}
