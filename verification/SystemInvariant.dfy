// The invariant of every reachable world, and its proof step by step.
// What a process knows is stable under Extends, so a transaction by one
// process never invalidates the stale copies of another.

module SystemInvariant {
  import opened Wrappers
  import opened LedgerRows
  import opened LedgerTransactions
  import opened LedgerInvariant
  import opened LedgerSteps
  import opened SubmissionSteps
  import opened ConfirmationSteps
  import opened RequestSteps
  import opened P = Protocol

  ghost predicate ViewHolds(db: Db, view: QuoteView) {
    view.id in db.quotes && db.quotes[view.id].report in db.artifacts && ViewOf(db, view.id) == view
  }

  ghost predicate Linked(db: Db, view: QuoteView, a: Id) {
    SubmittedIn(db, a) && db.attempts[a].quote == view.id
  }

  ghost predicate Knows(db: Db, proc: Proc) {
    match proc
    case Building(r, row) => r in db.requests && RequestKept(row, db.requests[r])
    case Loaded(view, seen, who) => ViewHolds(db, view) && (seen == Paid ==> PaidQuote(db, view.id))
    case SignatureVerified(view, who) => ViewHolds(db, view)
    case Begun(view, a, who) => ViewHolds(db, view) && a in db.attempts && db.attempts[a].quote == view.id
    case Cleared(view, a, who) => ViewHolds(db, view) && Linked(db, view, a)
    case Recording(view, a, tx, who, threw) => ViewHolds(db, view) && Linked(db, view, a)
    case Confirming(view, a, tx, who) => ViewHolds(db, view) && SubmittedIn(db, a) && (!who.Operator? ==> Linked(db, view, a))
    case Recovered(view, a, tx, receipt) => ViewHolds(db, view) && Linked(db, view, a)
    case Observed(view, a, tx, receipt, who) => ViewHolds(db, view) && SubmittedIn(db, a) && (!who.Operator? ==> Linked(db, view, a))
    case Catching(view, a, tx, review) => ViewHolds(db, view) && Linked(db, view, a)
    case Reviewing(view, a) => ViewHolds(db, view) && Linked(db, view, a)
    case RecoveryLoaded(view, hash) => ViewHolds(db, view)
    case Rereading(view) => ViewHolds(db, view)
    case PaidSeen(view) => ViewHolds(db, view) && PaidQuote(db, view.id)
    case EntitlementRead(view, a) => ViewHolds(db, view) && Linked(db, view, a) && view.id in db.entitlements
    case Delivering(view) => ViewHolds(db, view) && view.id in db.entitlements
    case Rebuilding(quote, report) => quote in db.entitlements && quote in db.quotes && db.quotes[quote].report == report && report in db.artifacts
    case Stopped => true
  }

  ghost predicate PaidQuote(db: Db, q: Id) {
    QuoteIs(db, q, Paid) || QuoteIs(db, q, ManualReview)
  }

  lemma KnowledgeLasts(d: Db, e: Db, proc: Proc)
    requires Extends(d, e) && Knows(d, proc)
    ensures Knows(e, proc)
  {
  }

  // The attempt that a process may still settle.
  ghost function Holds(proc: Proc): Option<Id> {
    match proc
    case Begun(view, a, who) => Some(a)
    case Cleared(view, a, who) => Some(a)
    case _ => None
  }

  ghost predicate AllKnow(db: Db, procs: map<Id, Proc>) {
    forall p :: p in procs ==> Knows(db, procs[p])
  }

  ghost predicate OneHolder(procs: map<Id, Proc>) {
    forall p, q, a :: p in procs && q in procs && Holds(procs[p]) == Some(a) && Holds(procs[q]) == Some(a) ==> p == q
  }

  ghost predicate HeldUnsettled(procs: map<Id, Proc>, settles: seq<Id>) {
    forall p, a :: p in procs && Holds(procs[p]) == Some(a) ==> a !in settles
  }

  ghost predicate Distinct(ids: seq<Id>) {
    forall i, j :: 0 <= i < j < |ids| ==> ids[i] != ids[j]
  }

  ghost predicate SettlesHold(db: Db, settles: seq<Id>) {
    Distinct(settles) && forall a :: a in settles ==> SubmittedIn(db, a)
  }

  // A claimed request is no longer one that a builder may claim.
  ghost predicate Taken(db: Db, r: Id) {
    r in db.requests && (db.requests[r].state != Preparing || db.requests[r].lease.Some?)
  }

  ghost predicate ClaimsHold(db: Db, claims: seq<Id>) {
    Distinct(claims) && forall r :: r in claims ==> Taken(db, r)
  }

  ghost predicate WorldInv(w: World) {
    && Inv(w.db) && AllKnow(w.db, w.procs)
    && OneHolder(w.procs) && HeldUnsettled(w.procs, w.settles)
    && SettlesHold(w.db, w.settles) && ClaimsHold(w.db, w.claims)
  }

  lemma InitialInv()
    ensures WorldInv(INITIAL)
  {
    forall rule: Rule
      ensures Keeps(EMPTY, rule)
    {
    }
  }

  lemma RecordsLast(d: Db, e: Db, settles: seq<Id>, claims: seq<Id>)
    requires Extends(d, e) && SettlesHold(d, settles) && ClaimsHold(d, claims)
    ensures SettlesHold(e, settles) && ClaimsHold(e, claims)
  {
  }

  lemma AllStillKnow(d: Db, e: Db, procs: map<Id, Proc>)
    requires Extends(d, e) && AllKnow(d, procs)
    ensures AllKnow(e, procs)
  {
    forall p | p in procs
      ensures Knows(e, procs[p])
    {
      KnowledgeLasts(d, e, procs[p]);
    }
  }

  ghost predicate Onward(w: World, v: World) {
    WorldInv(v) && Extends(w.db, v.db) && w.settles <= v.settles && w.claims <= v.claims
  }

  // A transaction by no process in particular.
  lemma CommitOnly(w: World, e: Db)
    requires WorldInv(w) && Safe(w.db, e)
    ensures Onward(w, w.(db := e))
  {
    AllStillKnow(w.db, e, w.procs);
    RecordsLast(w.db, e, w.settles, w.claims);
  }

  // Process `p` commits `e` and goes on as `proc`, holding no more than before.
  lemma Advance(w: World, e: Db, p: Id, proc: Proc)
    requires WorldInv(w) && Safe(w.db, e) && Knows(e, proc)
    requires Holds(proc).Some? ==> p in w.procs && Holds(w.procs[p]) == Holds(proc)
    ensures Onward(w, Commit(w, e, p, proc))
  {
    AllStillKnow(w.db, e, w.procs);
    RecordsLast(w.db, e, w.settles, w.claims);
    HoldersShrink(w.procs, w.settles, p, proc);
  }

  lemma HoldersShrink(procs: map<Id, Proc>, settles: seq<Id>, p: Id, proc: Proc)
    requires OneHolder(procs) && HeldUnsettled(procs, settles)
    requires Holds(proc).Some? ==> p in procs && Holds(procs[p]) == Holds(proc)
    ensures OneHolder(procs[p := proc]) && HeldUnsettled(procs[p := proc], settles)
  {
  }

  lemma GoOn(w: World, p: Id, proc: Proc)
    requires WorldInv(w) && Knows(w.db, proc)
    requires Holds(proc).Some? ==> p in w.procs && Holds(w.procs[p]) == Holds(proc)
    ensures Onward(w, Put(w, p, proc))
  {
    ExtendsReflexive(w.db);
    Advance(w, w.db, p, proc);
    assert Commit(w, w.db, p, proc) == Put(w, p, proc);
  }

  lemma StandStill(w: World)
    requires WorldInv(w)
    ensures Onward(w, w)
  {
    ExtendsReflexive(w.db);
  }

  // ------------------------------------------------------- the delicate steps

  // A new attempt is held by nobody else and was never settled.
  lemma BeginKeeps(w: World, p: Id, id: Id, auth: Authorization, clock: Time)
    requires WorldInv(w)
    ensures Onward(w, BeginStep(w, p, id, auth, clock))
  {
    if p in w.procs && w.procs[p].SignatureVerified? {
      var c := w.procs[p];
      assert Knows(w.db, c);
      BeginAttemptSafe(w.db, c.view.id, id, auth, clock);
      BeginAttemptCommits(w.db, c.view.id, id, auth, clock);
      var tx := BeginAttempt(w.db, c.view.id, id, auth, clock);
      if tx.Ok? {
        var e := tx.value.0;
        KnowledgeLasts(w.db, e, c);
        AllStillKnow(w.db, e, w.procs);
        RecordsLast(w.db, e, w.settles, w.claims);
        NewHolder(w.db, w.procs, w.settles, p, Begun(c.view, id, c.who), id);
      } else {
        Advance(w, w.db, p, Stopped);
      }
    } else {
      StandStill(w);
    }
  }

  lemma NewHolder(db: Db, procs: map<Id, Proc>, settles: seq<Id>, p: Id, proc: Proc, id: Id)
    requires AllKnow(db, procs) && OneHolder(procs) && HeldUnsettled(procs, settles) && SettlesHold(db, settles)
    requires Holds(proc) == Some(id) && id !in db.attempts
    ensures OneHolder(procs[p := proc]) && HeldUnsettled(procs[p := proc], settles)
  {
    forall q, a | q in procs && Holds(procs[q]) == Some(a)
      ensures a != id
    {
      assert Knows(db, procs[q]);
    }
  }

  lemma SubmitKeeps(w: World, p: Id, merchant: Option<Id>, clock: Time)
    requires WorldInv(w)
    ensures Onward(w, SubmitStep(w, p, merchant, clock))
  {
    if p in w.procs && w.procs[p].Begun? {
      var c := w.procs[p];
      assert Knows(w.db, c);
      var config := if c.who.Operator? then None else merchant;
      MarkSubmittingSafe(w.db, c.view.id, c.attempt, config, clock);
      var tx := MarkSubmitting(w.db, c.view.id, c.attempt, config, clock);
      KnowledgeLasts(w.db, After(w.db, tx), c);
      Advance(w, After(w.db, tx), p, if tx.Ok? && tx.value.1 == Submit then Cleared(c.view, c.attempt, c.who) else Stopped);
    } else {
      StandStill(w);
    }
  }

  // The settle is recorded once: its process held the attempt and lets it go.
  lemma SettleKeeps(w: World, p: Id, tx: Option<Id>, review: bool)
    requires WorldInv(w)
    ensures Onward(w, SettleStep(w, p, tx, review))
  {
    ExtendsReflexive(w.db);
    if p in w.procs && w.procs[p].Cleared? {
      var c := w.procs[p];
      assert Knows(w.db, c);
      var v := SettleStep(w, p, tx, review);
      Released(w.procs, w.settles, p, v.procs[p], c.attempt);
      assert Holds(c) == Some(c.attempt);
    }
  }

  lemma Released(procs: map<Id, Proc>, settles: seq<Id>, p: Id, proc: Proc, a: Id)
    requires OneHolder(procs) && HeldUnsettled(procs, settles)
    requires p in procs && Holds(procs[p]) == Some(a) && Holds(proc).None?
    ensures OneHolder(procs[p := proc]) && HeldUnsettled(procs[p := proc], settles + [a])
  {
  }

  lemma ClaimKeeps(w: World, p: Id, pick: Id)
    requires WorldInv(w)
    ensures Onward(w, ClaimStep(w, p, pick))
  {
    ClaimBuildSafe(w.db, pick);
    ClaimTakes(w.db, pick);
    var tx := ClaimBuild(w.db, pick);
    var e := After(w.db, tx);
    if p !in w.procs && tx.value.1.Some? {
      Advance(w, e, p, Building(pick, e.requests[pick]));
      assert ClaimStep(w, p, pick) == Commit(w, e, p, Building(pick, e.requests[pick])).(claims := w.claims + [pick]);
    } else if p !in w.procs {
      CommitOnly(w, e);
    } else {
      StandStill(w);
    }
  }

  lemma ClaimTakes(db: Db, pick: Id)
    ensures var tx := ClaimBuild(db, pick);
            tx.Ok? && (tx.value.1.Some? ==>
              tx.value.1 == Some(pick) && !Taken(db, pick) && Taken(tx.value.0, pick) && pick in tx.value.0.requests)
  {
  }

  // -------------------------------------------------- steps after the boundary

  lemma RecordKeeps(w: World, p: Id)
    requires WorldInv(w)
    ensures Onward(w, RecordStep(w, p))
  {
    if p in w.procs && (w.procs[p].Recording? || w.procs[p].Recovered?) {
      var c := w.procs[p];
      assert Knows(w.db, c);
      MarkUnknownSafe(w.db, c.view.id, c.attempt, c.tx);
      KnowledgeLasts(w.db, After(w.db, MarkUnknown(w.db, c.view.id, c.attempt, c.tx)), c);
      Advance(w, After(w.db, MarkUnknown(w.db, c.view.id, c.attempt, c.tx)), p, RecordStep(w, p).procs[p]);
    } else {
      StandStill(w);
    }
  }

  lemma CatchKeeps(w: World, p: Id)
    requires WorldInv(w)
    ensures Onward(w, CatchStep(w, p))
  {
    if p in w.procs && w.procs[p].Catching? {
      var c := w.procs[p];
      assert Knows(w.db, c);
      MarkUnknownSafe(w.db, c.view.id, c.attempt, c.tx);
      var e := After(w.db, MarkUnknown(w.db, c.view.id, c.attempt, c.tx));
      KnowledgeLasts(w.db, e, c);
      Advance(w, e, p, if c.review then Reviewing(c.view, c.attempt) else Stopped);
    } else {
      StandStill(w);
    }
  }

  lemma ReviewKeeps(w: World, p: Id)
    requires WorldInv(w)
    ensures Onward(w, ReviewStep(w, p))
  {
    if p in w.procs && w.procs[p].Reviewing? {
      var c := w.procs[p];
      assert Knows(w.db, c);
      HoldForReviewSafe(w.db, c.view.id, c.attempt);
      Advance(w, After(w.db, HoldForReview(w.db, c.view.id, c.attempt)), p, Stopped);
    } else {
      StandStill(w);
    }
  }

  lemma ConfirmNext(e: Db, c: Proc, next: Proc)
    requires c.Observed? && Knows(e, c)
    requires next in {AfterFailure(c.view, c.attempt, c.tx, c.who, true), AfterFailure(c.view, c.attempt, c.tx, c.who, false),
                      Stopped, Rereading(c.view)}
    requires next.Rereading? ==> c.who.Gateway? || c.who.RecoveryCall?
    ensures Knows(e, next) && Holds(next).None?
  {
  }

  lemma ConfirmKeeps(w: World, p: Id)
    requires WorldInv(w)
    ensures Onward(w, ConfirmStep(w, p))
  {
    if p in w.procs && w.procs[p].Observed? {
      var c := w.procs[p];
      assert Knows(w.db, c);
      ConfirmSafe(w.db, c.view, c.attempt, c.receipt);
      var e := After(w.db, Confirm(w.db, c.view, c.attempt, c.receipt));
      KnowledgeLasts(w.db, e, c);
      var next := ConfirmStep(w, p).procs[p];
      ConfirmNext(e, c, next);
      Advance(w, e, p, next);
    } else {
      StandStill(w);
    }
  }

  lemma LeaseKeeps(w: World, p: Id, a: Id)
    requires WorldInv(w)
    ensures Onward(w, LeaseStep(w, p, a))
  {
    var tx := LeaseReconciliation(w.db, a);
    LeaseReconciliationSafe(w.db, a);
    var v := LeaseStep(w, p, a);
    if v != w {
      var proc := v.procs[p];
      assert Knows(w.db, proc);
      KnowledgeLasts(w.db, tx.value.0, proc);
      Advance(w, tx.value.0, p, proc);
    } else {
      StandStill(w);
    }
  }

  // ------------------------------------------------------ building and delivery

  lemma PublishKeeps(w: World, p: Id, report: Id, sha: Id, quote: Id, payTo: Id, expires: Time)
    requires WorldInv(w)
    ensures Onward(w, PublishStep(w, p, report, sha, quote, payTo, expires))
  {
    if p in w.procs && w.procs[p].Building? {
      var c := w.procs[p];
      assert Knows(w.db, c);
      PublishSafe(w.db, c.request, c.row, report, sha, quote, payTo, expires);
      var tx := Publish(w.db, c.request, c.row, report, sha, quote, payTo, expires);
      Advance(w, After(w.db, tx), p, if tx.Ok? then Stopped else c);
    } else {
      StandStill(w);
    }
  }

  lemma RejectKeeps(w: World, p: Id, rejected: bool)
    requires WorldInv(w)
    ensures Onward(w, RejectStep(w, p, rejected))
  {
    if p in w.procs && w.procs[p].Building? {
      RejectBuildSafe(w.db, w.procs[p].request, rejected);
      Advance(w, After(w.db, RejectBuild(w.db, w.procs[p].request, rejected)), p, Stopped);
    } else {
      StandStill(w);
    }
  }

  lemma ExpireKeeps(w: World, p: Id)
    requires WorldInv(w)
    ensures Onward(w, ExpireStep(w, p))
  {
    if p in w.procs && w.procs[p].Loaded? && w.procs[p].seen == Ready {
      ExpireSafe(w.db, w.procs[p].view.id);
      Advance(w, After(w.db, Expire(w.db, w.procs[p].view.id)), p, Stopped);
    } else {
      StandStill(w);
    }
  }

  lemma DamageKeeps(w: World, p: Id)
    requires WorldInv(w)
    ensures Onward(w, DamageStep(w, p))
  {
    if p in w.procs && w.procs[p].Delivering? {
      var c := w.procs[p];
      assert Knows(w.db, c);
      StorageSetSafe(w.db, c.view.id, Recovery);
      Advance(w, SetStorage(w.db, c.view.report, Recovery), p, Stopped);
    } else {
      StandStill(w);
    }
  }

  lemma DeliverKeeps(w: World, p: Id)
    requires WorldInv(w)
    ensures Onward(w, DeliverStep(w, p))
  {
    if p in w.procs && w.procs[p].Delivering? {
      RecordDeliverySafe(w.db, w.procs[p].view);
      Advance(w, After(w.db, RecordDelivery(w.db, w.procs[p].view)), p, Stopped);
    } else {
      StandStill(w);
    }
  }

  lemma RebuildKeeps(w: World, p: Id)
    requires WorldInv(w)
    ensures Onward(w, RebuildStep(w, p))
  {
    if p in w.procs && w.procs[p].Rebuilding? {
      var c := w.procs[p];
      assert Knows(w.db, c);
      StorageSetSafe(w.db, c.quote, Available);
      Advance(w, SetStorage(w.db, c.report, Available), p, Stopped);
    } else {
      StandStill(w);
    }
  }

  // ------------------------------------------------------------------- reading

  // A process that only reads learns facts that hold.
  lemma PicksKnow(db: Db, c: Proc, a: Id)
    requires Knows(db, c)
    ensures var next := Picks(db, c, a); next.Some? ==> Knows(db, next.value) && Holds(next.value).None?
  {
  }

  lemma ResumesKnow(db: Db, c: Proc, grant: Id)
    requires Inv(db) && Knows(db, c)
    ensures var next := Resumes(db, c, grant); next.Some? ==> Knows(db, next.value) && Holds(next.value).None?
  {
    assert Keeps(db, ConsumptionRule);
  }

  lemma AsksKnow(db: Db, c: Proc, answer: Answer)
    requires Knows(db, c)
    ensures var next := Asks(c, answer); next.Some? ==> Knows(db, next.value) && Holds(next.value).None?
  {
  }

  lemma FailsKnow(db: Db, c: Proc)
    requires Knows(db, c)
    ensures var next := Fails(c); next.Some? ==> Knows(db, next.value) && Holds(next.value).None?
  {
  }

  lemma EntitlementKnown(db: Db, c: Proc, clock: Time)
    requires Inv(db) && Knows(db, c)
    ensures var next := ReadsEntitlement(db, c, clock); next.Some? ==> Knows(db, next.value) && Holds(next.value).None?
  {
    assert Keeps(db, EntitlementRule);
    if c.PaidSeen? && c.view.id in db.entitlements {
      assert EntitlementHolds(db, c.view.id);
    }
  }

  lemma SignatureKnown(db: Db, c: Proc)
    requires Knows(db, c)
    ensures var next := Verifies(c); next.Some? ==> Knows(db, next.value) && Holds(next.value).None?
  {
  }

  lemma PaidKnown(db: Db, c: Proc)
    requires Knows(db, c)
    ensures var next := Rereads(db, c); next.Some? ==> Knows(db, next.value) && Holds(next.value).None?
    ensures var next := SeesPaid(c); next.Some? ==> Knows(db, next.value) && Holds(next.value).None?
  {
  }

  lemma RevalidationKnown(db: Db, c: Proc, result: Revalidation)
    requires Knows(db, c)
    ensures var next := Revalidates(c, result); next.Some? ==> Knows(db, next.value) && Holds(next.value).None?
  {
  }

  lemma StartsKnow(db: Db, action: Action)
    requires Inv(db) && (action.Load? || action.LoadRecovery? || action.StartRebuild?)
    ensures var next := Starts(db, action); next.Some? ==> Knows(db, next.value) && Holds(next.value).None?
  {
    assert Keeps(db, StorageRule);
  }

  lemma ChasesKnow(db: Db, c: Proc, action: Action)
    requires Inv(db) && Knows(db, c) && Chasing(action)
    ensures var next := Chases(db, c, action); next.Some? ==> Knows(db, next.value) && Holds(next.value).None?
  {
    match action
    case Ask(_, answer) => AsksKnow(db, c, answer);
    case Fail(_) => FailsKnow(db, c);
    case PickRecoverable(_, a) => PicksKnow(db, c, a);
    case Resume(_, grant) => ResumesKnow(db, c, grant);
  }

  lemma ReadsOnKnow(db: Db, c: Proc, action: Action)
    requires Inv(db) && Knows(db, c) && Reading(action)
    ensures var next := ReadsOn(db, c, action); next.Some? ==> Knows(db, next.value) && Holds(next.value).None?
  {
    match action
    case VerifySignature(_) => SignatureKnown(db, c);
    case Reread(_) => PaidKnown(db, c);
    case ReadPaid(_) => PaidKnown(db, c);
    case ReadEntitlement(_, clock) => EntitlementKnown(db, c, clock);
    case Revalidate(_, result) => RevalidationKnown(db, c, result);
  }

  lemma ReadKeeps(w: World, action: Action)
    requires WorldInv(w)
    ensures Onward(w, ReadStep(w, action))
  {
    if action.Load? || action.LoadRecovery? || action.StartRebuild? {
      StartsKnow(w.db, action);
    } else if Continuing(action) && action.p in w.procs {
      if Chasing(action) {
        ChasesKnow(w.db, w.procs[action.p], action);
      } else {
        ReadsOnKnow(w.db, w.procs[action.p], action);
      }
    }
    match Reads(w.db, w.procs, action)
    case Some((p, proc)) => GoOn(w, p, proc);
    case None => StandStill(w);
  }

  // ------------------------------------------------------------ every step, run

  lemma UnattendedSafe(db: Db, action: Action)
    requires Inv(db) && Unattended(action)
    ensures Safe(db, UnattendedStep(db, action))
  {
    match action
    case Tick(elapsed) => TickSafe(db, elapsed);
    case Activate(grant, authority) => ActivateGrantSafe(db, grant, authority);
    case Create(id, scope, key, body, report, withinBudget) => CreateRequestSafe(db, id, scope, key, body, report, withinBudget);
    case Postpone(a, count) => RescheduleSafe(db, a, count);
    case SweepStale(rows) => RejectAllStaleSafe(db, rows);
    case SweepQuotes => SweepExpiredSafe(db);
    case Cleanup(rows) => RemoveUnpaidSafe(db, rows);
  }

  lemma CrossingKeeps(w: World, action: Action)
    requires WorldInv(w) && Crossing(action)
    ensures Onward(w, CrossingStep(w, action))
  {
    match action
    case ExpireLoaded(p) => ExpireKeeps(w, p);
    case Begin(p, id, auth, clock) => BeginKeeps(w, p, id, auth, clock);
    case Submission(p, merchant, clock) => SubmitKeeps(w, p, merchant, clock);
    case Settle(p, tx, review) => SettleKeeps(w, p, tx, review);
  }

  lemma SettlingKeeps(w: World, action: Action)
    requires WorldInv(w) && Settling(action)
    ensures Onward(w, SettlingStep(w, action))
  {
    match action
    case Record(p) => RecordKeeps(w, p);
    case ConfirmReceipt(p) => ConfirmKeeps(w, p);
    case Catch(p) => CatchKeeps(w, p);
    case Review(p) => ReviewKeeps(w, p);
    case Lease(p, a) => LeaseKeeps(w, p, a);
  }

  lemma KeepingKeeps(w: World, action: Action)
    requires WorldInv(w) && Keeping(action)
    ensures Onward(w, KeepingStep(w, action))
  {
    match action
    case Claim(p, pick) => ClaimKeeps(w, p, pick);
    case FinishBuild(p, report, sha, quote, payTo, expires) => PublishKeeps(w, p, report, sha, quote, payTo, expires);
    case FailBuild(p, rejected) => RejectKeeps(w, p, rejected);
    case Damage(p) => DamageKeeps(w, p);
    case Deliver(p) => DeliverKeeps(w, p);
    case FinishRebuild(p) => RebuildKeeps(w, p);
  }

  lemma StepKeeps(w: World, action: Action)
    requires WorldInv(w)
    ensures Onward(w, Step(w, action))
  {
    if Unattended(action) {
      UnattendedSafe(w.db, action);
      CommitOnly(w, UnattendedStep(w.db, action));
    } else if Crossing(action) {
      CrossingKeeps(w, action);
    } else if Settling(action) {
      SettlingKeeps(w, action);
    } else if Keeping(action) {
      KeepingKeeps(w, action);
    } else {
      ReadKeeps(w, action);
    }
  }

  lemma OnwardTransitive(u: World, v: World, w: World)
    requires Onward(u, v) && Onward(v, w)
    ensures Onward(u, w)
  {
    ExtendsTransitive(u.db, v.db, w.db);
  }

  lemma {:induction false} RunKeeps(w: World, actions: seq<Action>)
    requires WorldInv(w)
    ensures Onward(w, Run(w, actions))
  {
    if actions == [] {
      StandStill(w);
    } else {
      var before := actions[..|actions| - 1];
      RunKeeps(w, before);
      StepKeeps(Run(w, before), actions[|actions| - 1]);
      OnwardTransitive(w, Run(w, before), Run(w, actions));
    }
  }

  lemma {:induction false} RunConcat(w: World, first: seq<Action>, rest: seq<Action>)
    ensures Run(w, first + rest) == Run(Run(w, first), rest)
    decreases |rest|
  {
    if rest == [] {
      assert first + rest == first;
    } else {
      assert (first + rest)[..|first + rest| - 1] == first + rest[..|rest| - 1];
      RunConcat(w, first, rest[..|rest| - 1]);
    }
  }

  lemma ReachableInv(actions: seq<Action>)
    ensures WorldInv(Run(INITIAL, actions))
  {
    InitialInv();
    RunKeeps(INITIAL, actions);
  }
}
