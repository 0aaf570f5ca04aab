// What each transaction of the ledger answers and leaves behind, spelled out in
// the rows it finds: the exact condition of every outcome, and every row after
// it. Amounts and times are written out.

module LedgerOutcomes {
  import opened Wrappers
  import opened LedgerRows
  import opened LedgerTransactions
  import opened LedgerInvariant
  import opened LedgerSteps
  import opened SubmissionSteps
  import opened ConfirmationSteps

  function ReplyOf<T>(tx: Tx<T>): Result<T, Refusal> {
    match tx
    case Ok((_, value)) => Ok(value)
    case Err(error) => Err(error)
  }

  // ---------------------------------------------------------------- requests

  // A request under a known scope and key is answered with the row that is there,
  // or as a conflict; a new one is written unless over budget.
  ghost predicate RequestAnswered(
    d: Db, e: Db, id: Id, scope: Id, key: Id, body: Body, report: Id, withinBudget: bool, r: Result<Id, Refusal>)
  {
    && (forall k :: k in d.requests && d.requests[k].scope == scope && d.requests[k].key == key ==>
          e == d && r == if d.requests[k].body == body then Ok(k) else Err(IdempotencyConflict))
    && ((forall k :: k in d.requests ==> d.requests[k].scope != scope || d.requests[k].key != key) ==>
          if id in d.requests || (exists k :: k in d.requests && d.requests[k].report == report) then
            e == d && r == Err(UniqueViolation)
          else if !withinBudget then e == d && r == Err(RateLimited)
          else
            r == Ok(id)
            && e == d.(requests := d.requests[id := RequestRow(scope, key, body, report, Preparing, None, None)]))
  }

  lemma RequestAnswers(d: Db, id: Id, scope: Id, key: Id, body: Body, report: Id, withinBudget: bool)
    requires Inv(d)
    ensures var tx := CreateRequest(d, id, scope, key, body, report, withinBudget);
            RequestAnswered(d, After(d, tx), id, scope, key, body, report, withinBudget, ReplyOf(tx))
  {
    assert Keeps(d, RequestRule);
  }

  // The row of a request after a claim: leased, failed, or as it was.
  function ClaimedRow(d: Db, r: Id, claimed: Option<Id>): RequestRow
    requires r in d.requests
  {
    var row := d.requests[r];
    if claimed == Some(r) then row.(lease := Some(d.now + 20_000))
    else if row.state == Preparing && row.lease.Some? && row.lease.value < d.now then
      row.(state := BuildFailed, lease := None)
    else row
  }

  ghost function RunningBuilds(d: Db): set<Id> {
    set r | r in d.requests && d.requests[r].state == Preparing && d.requests[r].lease.Some?
            && d.now < d.requests[r].lease.value
  }

  // The picked request is claimed if and only if it waits and fewer than four
  // builds run; whose lease ran out has failed.
  ghost predicate BuildClaimed(d: Db, e: Db, pick: Id, claimed: Option<Id>) {
    && claimed == (if |RunningBuilds(d)| < 4 && pick in d.requests && d.requests[pick].state == Preparing
                      && d.requests[pick].lease.None?
                   then Some(pick) else None)
    && e == d.(requests := e.requests) && e.requests.Keys == d.requests.Keys
    && forall r :: r in d.requests ==> e.requests[r] == ClaimedRow(d, r, claimed)
  }

  lemma ClaimDecides(d: Db, pick: Id)
    ensures var tx := ClaimBuild(d, pick); tx.Ok? && BuildClaimed(d, tx.value.0, pick, tx.value.1)
  {
    var swept := SweepLeases(d);
    assert LiveLeases(swept) == RunningBuilds(d);
  }

  // A build that is still preparing ends, rejected or failed; others stay.
  ghost predicate BuildEnded(d: Db, e: Db, id: Id, rejected: bool) {
    if id in d.requests && d.requests[id].state == Preparing then
      var row := d.requests[id];
      e == d.(requests := d.requests[id := row.(state := if rejected then RequestRejected else BuildFailed, lease := None)])
    else e == d
  }

  // ------------------------------------------------------------------- quotes

  // A quote is offered for a claimed build that is still preparing, on the terms
  // of the claim; else the first reason against it is given.
  ghost predicate QuotePublished(
    d: Db, e: Db, id: Id, claimed: RequestRow, report: Id, sha: Id, quote: Id, payTo: Id, expires: Time,
    r: Result<Id, Refusal>)
  {
    if id !in d.requests || d.requests[id].state != Preparing then e == d && r == Err(InvalidState)
    else if report in d.artifacts || quote in d.quotes
            || (exists q :: q in d.quotes && (d.quotes[q].request == id || d.quotes[q].report == report)) then
      e == d && r == Err(UniqueViolation)
    else if report != claimed.report || report != d.requests[id].report || claimed.scope != d.requests[id].scope then
      e == d && r == Err(ForeignKeyViolation)
    else if payTo == claimed.body.payer || expires <= d.now then e == d && r == Err(CheckViolation)
    else
      && r == Ok(quote)
      && e.artifacts == d.artifacts[report := ArtifactRow(claimed.scope, sha, Available)]
      && e.quotes == d.quotes[quote := QuoteRow(id, claimed.scope, report, payTo, claimed.body.payer, expires, Ready)]
      && e.requests == d.requests[id := d.requests[id].(state := RequestReady, quote := Some(quote), lease := None)]
      && e == d.(artifacts := e.artifacts, quotes := e.quotes, requests := e.requests)
  }

  lemma PublishDecides(
    d: Db, id: Id, claimed: RequestRow, report: Id, sha: Id, quote: Id, payTo: Id, expires: Time)
    ensures var tx := Publish(d, id, claimed, report, sha, quote, payTo, expires);
            QuotePublished(d, After(d, tx), id, claimed, report, sha, quote, payTo, expires, ReplyOf(tx))
  {
  }

  // A READY quote past its time has expired; no other row changes.
  ghost predicate QuoteExpires(d: Db, e: Db, q: Id) {
    if q in d.quotes && d.quotes[q].state == Ready && d.quotes[q].expires <= d.now then
      e == d.(quotes := d.quotes[q := d.quotes[q].(state := Expired)])
    else e == d
  }

  // The sweep does the same to every quote.
  lemma SweepMeans(d: Db)
    ensures var e := SweepExpired(d);
            && e == d.(quotes := e.quotes) && e.quotes.Keys == d.quotes.Keys
            && forall q :: q in d.quotes ==>
                 e.quotes[q] == if d.quotes[q].state == Ready && d.quotes[q].expires <= d.now
                                then d.quotes[q].(state := Expired) else d.quotes[q]
  {
  }

  // --------------------------------------------------------------- beginAttempt

  // An authorization is taken when its identity or its merchant nonce was used,
  // or its quote has an attempt that was not rejected.
  ghost predicate Taken(d: Db, id: Id, q: Id, auth: Authorization) {
    id in d.attempts ||
    exists a :: a in d.attempts &&
      var c, n := d.attempts[a].authorization.correlation, auth.correlation;
      || d.attempts[a].authorization.identity == auth.identity
      || (d.attempts[a].quote == q && d.attempts[a].state != Rejected)
      || (c.mode == Merchant && n.mode == Merchant && c.network.Some? && c.from.Some? && c.nonce.Some?
          && (c.network, c.from, c.nonce) == (n.network, n.from, n.nonce))
  }

  ghost predicate AttemptBegun(d: Db, e: Db, q: Id, id: Id, auth: Authorization, clock: Time, r: Result<Id, Refusal>) {
    if q !in d.quotes then e == d && r == Err(MissingRow)
    else if d.quotes[q].state != Ready then e == d && r == Err(Refusal.Uncertain)
    else if d.quotes[q].expires <= clock then e == d && r == Err(QuoteExpired)
    else if Taken(d, id, q, auth) then e == d && r == Err(AuthorizationReused)
    else
      && r == Ok(id)
      && e == d.(attempts := d.attempts[id := AttemptRow(q, auth, Verified, None, d.now, 0, d.now)],
                 quotes := d.quotes[q := d.quotes[q].(state := PaymentPending)])
  }

  lemma BeginDecides(d: Db, q: Id, id: Id, auth: Authorization, clock: Time)
    ensures var tx := BeginAttempt(d, q, id, auth, clock);
            AttemptBegun(d, After(d, tx), q, id, auth, clock, ReplyOf(tx))
  {
    assert Taken(d, id, q, auth) <==> Conflicts(d, id, q, auth);
    BeginAttemptCommits(d, q, id, auth, clock);
  }

  // ------------------------------------------------------------- markSubmitting

  ghost function RowsOf(d: Db, grant: Id): set<int> {
    set i | 0 <= i < |d.reservations| && d.reservations[i].grant == grant
  }

  // The signed grant is known, its window is open, and one more submission fits
  // its count and its sum.
  ghost predicate RoomUnder(d: Db, grant: Id, clock: Time) {
    && grant in d.authorities
    && d.authorities[grant].notBefore <= clock && clock < d.authorities[grant].expires
    && |RowsOf(d, grant)| + 1 <= d.authorities[grant].maxSubmissions
    && (|RowsOf(d, grant)| + 1) * 10_000_000_000_000_000 <= d.authorities[grant].maxTotal
  }

  // Neither this attempt nor, under this grant, its payer has a row.
  ghost predicate PayerIsNew(d: Db, grant: Id, a: Id, payer: Id) {
    forall i :: 0 <= i < |d.reservations| ==>
      && d.reservations[i].attempt != a
      && (d.reservations[i].grant == grant ==> d.reservations[i].payer != payer)
  }

  // The authorization says what the quote and this gateway say.
  predicate MerchantAgrees(quote: QuoteRow, auth: Authorization, payTo: Id) {
    var c := auth.correlation;
    && auth.permit2 && quote.state == PaymentPending && c.mode == Merchant && c.grant.Absent?
    && quote.payTo == payTo && c.to == Some(payTo) && c.from == Some(quote.payer)
    && c.network == Some(31611) && c.asset == Some(0x118917a40FAF1CD7a13dB0Ef56C86De7973Ac503)
    && c.amount == Some(10_000_000_000_000_000) && c.nonce.Some? && c.decimalNonce
  }

  // The attempt is across, to be looked after in half a minute.
  function Sent(d: Db, a: Id): Db
    requires a in d.attempts
  {
    var row := d.attempts[a];
    d.(attempts := d.attempts[a := row.(state := Submitting, updated := d.now, nextReconcile := d.now + 30_000)])
  }

  // The attempt is rejected, and its quote is in the given state.
  function TurnedAway(d: Db, a: Id, state: QuoteState): Db
    requires a in d.attempts && d.attempts[a].quote in d.quotes
  {
    var q := d.attempts[a].quote;
    d.(attempts := d.attempts[a := d.attempts[a].(state := Rejected, updated := d.now)],
       quotes := d.quotes[q := d.quotes[q].(state := state)])
  }

  // The one row that pays for the submission, if the grant admits it.
  ghost predicate SignedDecided(d: Db, e: Db, a: Id, clock: Time, r: Result<Submission, Refusal>)
    requires a in d.attempts && d.attempts[a].quote in d.quotes
    requires d.attempts[a].authorization.correlation.grant.Digest?
  {
    var c := d.attempts[a].authorization.correlation;
    var grant := c.grant.digest;
    if RoomUnder(d, grant, clock) && c.from.None? then e == d && r == Err(CheckViolation)
    else if RoomUnder(d, grant, clock) && PayerIsNew(d, grant, a, c.from.value) then
      var row := Reservation(grant, |RowsOf(d, grant)| + 1, a, c.from.value, 10_000_000_000_000_000);
      r == Ok(Submit) && e == Sent(d.(reservations := d.reservations + [row]), a)
    else r == Ok(GrantConsumed) && e == TurnedAway(d, a, Ready)
  }

  ghost predicate UnsignedDecided(d: Db, e: Db, a: Id, r: Result<Submission, Refusal>)
    requires a in d.attempts && d.attempts[a].quote in d.quotes
    requires d.attempts[a].authorization.correlation.grant.Digest? && d.attempts[a].authorization.correlation.grantId.Some?
  {
    var c := d.attempts[a].authorization.correlation;
    if c.grant.digest !in d.consumptions
       && forall g :: g in d.consumptions ==> d.consumptions[g].grantId != c.grantId.value && d.consumptions[g].attempt != a
    then
      r == Ok(Submit)
      && e == Sent(d.(consumptions := d.consumptions[c.grant.digest := Consumption(c.grantId.value, a)]), a)
    else r == Ok(GrantConsumed) && e == TurnedAway(d, a, Ready)
  }

  // The spending alone: whether a row was inserted.
  ghost predicate GrantSpent(d: Db, e: Db, a: Id, clock: Time, r: Result<bool, Refusal>)
    requires a in d.attempts
    requires d.attempts[a].authorization.correlation.grant.Digest? && d.attempts[a].authorization.correlation.grantId.Some?
  {
    var c := d.attempts[a].authorization.correlation;
    var grant := c.grant.digest;
    if !c.signedGrant then
      var unused := grant !in d.consumptions
        && forall g :: g in d.consumptions ==> d.consumptions[g].grantId != c.grantId.value && d.consumptions[g].attempt != a;
      r == Ok(unused)
      && e == if unused then d.(consumptions := d.consumptions[grant := Consumption(c.grantId.value, a)]) else d
    else if RoomUnder(d, grant, clock) && c.from.None? then e == d && r == Err(CheckViolation)
    else if RoomUnder(d, grant, clock) && PayerIsNew(d, grant, a, c.from.value) then
      var row := Reservation(grant, |RowsOf(d, grant)| + 1, a, c.from.value, 10_000_000_000_000_000);
      r == Ok(true) && e == d.(reservations := d.reservations + [row])
    else r == Ok(false) && e == d
  }

  lemma SpendMeans(d: Db, a: Id, clock: Time)
    requires Inv(d) && a in d.attempts && GrantNamed(d.attempts[a].authorization.correlation)
    ensures match SpendGrant(d, a, clock)
            case Ok(Some(e)) => GrantSpent(d, e, a, clock, Ok(true))
            case Ok(None) => GrantSpent(d, d, a, clock, Ok(false))
            case Err(error) => GrantSpent(d, d, a, clock, Err(error))
  {
    if d.attempts[a].authorization.correlation.signedGrant {
      SignedSpends(d, a, clock);
    }
  }

  // Exactly what becomes of a submission, and why.
  ghost predicate SubmissionDecided(
    d: Db, e: Db, a: Id, merchant: Option<Id>, clock: Time, r: Result<Submission, Refusal>)
    requires a in d.attempts && d.attempts[a].quote in d.quotes
  {
    var row, quote := d.attempts[a], d.quotes[d.attempts[a].quote];
    var c := row.authorization.correlation;
    if row.state != Verified then r == Ok(SubmitInvalid) && e == d
    else if quote.expires <= clock || row.authorization.validUntil <= clock then
      r == Ok(SubmitExpired) && e == TurnedAway(d, a, Expired)
    else if merchant.Some? then
      if MerchantAgrees(quote, row.authorization, merchant.value) then r == Ok(Submit) && e == Sent(d, a)
      else r == Ok(SubmitInvalid) && e == d
    else if c.mode != NoMode || !c.grant.Digest? || c.grantId.None? then r == Ok(SubmitInvalid) && e == d
    else if c.signedGrant then SignedDecided(d, e, a, clock, r)
    else UnsignedDecided(d, e, a, r)
  }

  lemma {:induction false} ReservationsCounted(rows: seq<Reservation>, grant: Id)
    ensures |ReservationsOf(rows, grant)| == |set i | 0 <= i < |rows| && rows[i].grant == grant|
    ensures (forall i :: 0 <= i < |rows| ==> rows[i].amount == AMOUNT) ==>
              TotalReserved(ReservationsOf(rows, grant)) == |ReservationsOf(rows, grant)| * AMOUNT
    ensures forall i :: 0 <= i < |rows| && rows[i].grant == grant ==> rows[i] in ReservationsOf(rows, grant)
  {
    if rows != [] {
      var n := |rows| - 1;
      ReservationsCounted(rows[..n], grant);
      var all, init := (set i | 0 <= i < |rows| && rows[i].grant == grant), set i | 0 <= i < n && rows[..n][i].grant == grant;
      assert all == if rows[n].grant == grant then init + {n} else init;
      if rows[n].grant == grant {
        TotalAppend(ReservationsOf(rows[..n], grant), rows[n]);
      }
      assert forall i :: 0 <= i < n ==> rows[..n][i] == rows[i];
    }
  }

  lemma RoomMeans(d: Db, grant: Id, clock: Time)
    requires Inv(d)
    ensures |RowsOf(d, grant)| == |ReservationsOf(d.reservations, grant)|
    ensures HasBudget(d, grant, clock) <==> RoomUnder(d, grant, clock)
    ensures forall i :: 0 <= i < |d.reservations| && d.reservations[i].grant == grant ==>
              d.reservations[i].ordinal != |RowsOf(d, grant)| + 1
  {
    assert Keeps(d, ReservationRule) && Keeps(d, BudgetRule);
    ReservationsCounted(d.reservations, grant);
    assert BudgetKept(d, grant);
  }

  lemma SignedSpends(d: Db, a: Id, clock: Time)
    requires Inv(d) && a in d.attempts && GrantNamed(d.attempts[a].authorization.correlation)
    requires d.attempts[a].authorization.correlation.signedGrant
    ensures var c, spent := d.attempts[a].authorization.correlation, SpendGrant(d, a, clock);
            if RoomUnder(d, c.grant.digest, clock) && c.from.None? then spent == Err(CheckViolation)
            else if RoomUnder(d, c.grant.digest, clock) && PayerIsNew(d, c.grant.digest, a, c.from.value) then
              var row := Reservation(c.grant.digest, |RowsOf(d, c.grant.digest)| + 1, a, c.from.value, AMOUNT);
              spent == Ok(Some(d.(reservations := d.reservations + [row])))
            else spent == Ok(None)
  {
    RoomMeans(d, d.attempts[a].authorization.correlation.grant.digest, clock);
  }

  lemma TurnedAwayIs(d: Db, a: Id, state: QuoteState)
    requires AttemptIs(d, a, Verified) && QuoteIs(d, d.attempts[a].quote, PaymentPending)
    requires state == Ready || state == Expired
    ensures SetAttempt(d, a, Rejected, d.attempts[a].tx).Ok?
    ensures SetQuote(SetAttempt(d, a, Rejected, d.attempts[a].tx).value, d.attempts[a].quote, state) ==
            Ok(TurnedAway(d, a, state))
  {
  }

  lemma SubmissionDecides(d: Db, a: Id, merchant: Option<Id>, clock: Time)
    requires Inv(d) && a in d.attempts
    ensures d.attempts[a].quote in d.quotes
    ensures var tx := MarkSubmitting(d, d.attempts[a].quote, a, merchant, clock);
            SubmissionDecided(d, After(d, tx), a, merchant, clock, ReplyOf(tx))
  {
    assert Keeps(d, AttemptRule) && Keeps(d, LockstepRule);
    var row := d.attempts[a];
    if row.state == Verified {
      assert Active(d, a);
      TurnedAwayIs(d, a, Ready);
      TurnedAwayIs(d, a, Expired);
      CrossBoundaryIs(d, a);
      if merchant.None? && clock < d.quotes[row.quote].expires && clock < row.authorization.validUntil
         && GrantNamed(row.authorization.correlation) {
        GrantDecides(d, a, clock);
      }
    }
  }

  lemma GrantDecides(d: Db, a: Id, clock: Time)
    requires Inv(d) && AttemptIs(d, a, Verified) && QuoteIs(d, d.attempts[a].quote, PaymentPending)
    requires clock < d.quotes[d.attempts[a].quote].expires && clock < d.attempts[a].authorization.validUntil
    requires GrantNamed(d.attempts[a].authorization.correlation)
    ensures var tx := MarkSubmitting(d, d.attempts[a].quote, a, None, clock);
            if d.attempts[a].authorization.correlation.signedGrant then SignedDecided(d, After(d, tx), a, clock, ReplyOf(tx))
            else UnsignedDecided(d, After(d, tx), a, ReplyOf(tx))
  {
    var spent := SpendGrant(d, a, clock);
    TurnedAwayIs(d, a, Ready);
    if d.attempts[a].authorization.correlation.signedGrant {
      SignedSpends(d, a, clock);
    }
    if spent.Ok? && spent.value.Some? {
      CrossBoundaryIs(spent.value.value, a);
    }
  }

  // ------------------------------------------------------- after the submission

  // Beyond the boundary and not yet confirmed, the attempt becomes unknown and
  // its quote uncertain, and the first hash that was told is kept; confirmed and
  // reviewed payments stay as they are.
  ghost predicate UnknownMarked(d: Db, e: Db, a: Id, tx: Option<Id>)
    requires a in d.attempts && d.attempts[a].quote in d.quotes
  {
    var row, q := d.attempts[a], d.attempts[a].quote;
    if row.state == Submitting || row.state == AttemptState.Unknown then
      e == d.(attempts := d.attempts[a := row.(state := AttemptState.Unknown, updated := d.now,
                                               tx := if row.tx.Some? then row.tx else tx)],
              quotes := d.quotes[q := d.quotes[q].(state := PaymentUncertain)])
    else e == d
  }

  lemma UnknownMarks(d: Db, a: Id, tx: Option<Id>)
    requires Inv(d) && SubmittedIn(d, a)
    ensures d.attempts[a].quote in d.quotes && MarkUnknown(d, d.attempts[a].quote, a, tx).Ok?
    ensures UnknownMarked(d, After(d, MarkUnknown(d, d.attempts[a].quote, a, tx)), a, tx)
  {
    PairedIn(d, d.attempts[a].quote, a);
    MarkUnknownCommits(d, d.attempts[a].quote, a, tx);
  }

  // The receipt names the quote's own terms, this attempt and the one price.
  ghost predicate ReceiptAgrees(view: QuoteView, a: Id, r: Receipt) {
    && r.quote == view.id && r.report == view.report && r.sha == view.sha && r.attempt == a
    && r.network == 31611 && r.asset == 0x118917a40FAF1CD7a13dB0Ef56C86De7973Ac503
    && r.amount == 10_000_000_000_000_000 && r.payer == view.payer && r.payTo == view.payTo
  }

  // What a confirmation answers for the quote of the attempt: the first reason
  // against it, or the chain event, a week's entitlement and both final states.
  ghost predicate ConfirmationAnswered(d: Db, e: Db, view: QuoteView, a: Id, r: Receipt, raised: Option<Refusal>)
    requires a in d.attempts && view.id in d.quotes
  {
    var row := d.attempts[a];
    if row.state == Confirmed then raised.None? && e == d
    else if !ReceiptAgrees(view, a, r) then raised == Some(PaymentRejected) && e == d
    else if (r.tx, r.log) in d.events || (exists t :: t in d.events && d.events[t] == a) || view.id in d.entitlements
            || (exists q :: q in d.entitlements && d.entitlements[q].attempt == a) then
      raised == Some(UniqueViolation) && e == d
    else if row.quote != view.id then raised == Some(ForeignKeyViolation) && e == d
    else if row.tx.Some? && row.tx != Some(r.tx) then raised == Some(ImmutableTrigger) && e == d
    else
      && raised.None?
      && e.events == d.events[(r.tx, r.log) := a]
      && e.entitlements == d.entitlements[view.id :=
           Entitlement(a, view.report, view.scope, view.sha, r, r.confirmedAt + 604_800_000)]
      && e.attempts == d.attempts[a := row.(state := Confirmed, tx := Some(r.tx), updated := d.now)]
      && e.quotes == d.quotes[view.id := d.quotes[view.id].(state := Paid)]
      && e == d.(events := e.events, entitlements := e.entitlements, attempts := e.attempts, quotes := e.quotes)
  }

  // The caller's copy of the quote is as it reads it, the attempt beyond the
  // boundary.
  ghost predicate ConfirmedByIn(db: Db, view: QuoteView, a: Id) {
    SubmittedIn(db, a) && view.id in db.quotes && db.quotes[view.id].report in db.artifacts && view == ViewOf(db, view.id)
  }

  lemma ConfirmAnswers(d: Db, view: QuoteView, a: Id, r: Receipt)
    requires Inv(d) && ConfirmedByIn(d, view, a)
    ensures var tx := Confirm(d, view, a, r);
            ConfirmationAnswered(d, After(d, tx), view, a, r, if tx.Ok? then None else Some(tx.error))
  {
    PairedIn(d, d.attempts[a].quote, a);
    assert ReceiptBinds(view, a, r) <==> ReceiptAgrees(view, a, r);
    if MayConfirm(d, view, a, r) {
      ConfirmCommits(d, view, a, r);
    }
  }

  // Any payment beyond the boundary is put under review.
  ghost predicate PutUnderReview(d: Db, e: Db, a: Id)
    requires a in d.attempts && d.attempts[a].quote in d.quotes
  {
    var row, q := d.attempts[a], d.attempts[a].quote;
    if row.state == InReview then e == d
    else
      e == d.(attempts := d.attempts[a := row.(state := InReview, updated := d.now)],
              quotes := d.quotes[q := d.quotes[q].(state := ManualReview)])
  }

  lemma ReviewHolds(d: Db, a: Id)
    requires Inv(d) && SubmittedIn(d, a)
    ensures d.attempts[a].quote in d.quotes && HoldForReview(d, d.attempts[a].quote, a).Ok?
    ensures PutUnderReview(d, After(d, HoldForReview(d, d.attempts[a].quote, a)), a)
  {
    PairedIn(d, d.attempts[a].quote, a);
    HoldForReviewCommits(d, d.attempts[a].quote, a);
  }

  // A delivery is recorded exactly for a paid quote of the caller whose report,
  // entitled by a confirmed attempt, is still retained.
  ghost predicate Delivered(d: Db, e: Db, view: QuoteView, recorded: bool) {
    && (recorded <==>
          && view.id in d.quotes && d.quotes[view.id].scope == view.scope && d.quotes[view.id].state == Paid
          && view.id in d.entitlements
          && var given := d.entitlements[view.id];
             && (given.report, given.sha, given.scope) == (view.report, view.sha, view.scope)
             && d.now < given.retainUntil
             && given.attempt in d.attempts && d.attempts[given.attempt].state == Confirmed)
    && e == if recorded then d.(deliveries := d.deliveries + [view.id]) else d
  }

  // For a paid quote and its own view, retention alone decides.
  lemma RetentionDecides(d: Db, q: Id)
    requires Inv(d) && QuoteIs(d, q, Paid)
    ensures q in d.entitlements && d.quotes[q].report in d.artifacts
    ensures d.entitlements[q].retainUntil == d.entitlements[q].receipt.confirmedAt + 7 * 24 * 60 * 60 * 1000
    ensures var e := After(d, RecordDelivery(d, ViewOf(d, q)));
            e.deliveries == if d.now < d.entitlements[q].retainUntil then d.deliveries + [q] else d.deliveries
  {
    assert Keeps(d, HeldRule) && Keeps(d, LockstepRule) && Keeps(d, ConfirmedRule) && Keeps(d, EntitlementRule);
    assert HasActive(d, q);
    var a :| Active(d, a) && d.attempts[a].quote == q;
    assert EntitlementHolds(d, q);
  }

  // ------------------------------------------------------------------- workers

  // A due uncertain attempt is leased for a minute and the try counted.
  ghost predicate Leased(d: Db, e: Db, a: Id, leased: bool) {
    && (leased <==>
          && a in d.attempts && d.attempts[a].nextReconcile <= d.now
          && (d.attempts[a].state == Submitting || d.attempts[a].state == AttemptState.Unknown))
    && e == if !leased then d
            else
              d.(attempts := d.attempts[a := d.attempts[a].(nextReconcile := d.now + 60_000,
                                                            reconciliations := d.attempts[a].reconciliations + 1)])
  }

  // The wait after a try doubles from half a minute up to an hour.
  lemma BackoffMeans(count: nat)
    ensures Backoff(count) ==
            if count == 0 then 30_000 else if count >= 7 then 3_600_000 else 2 * Backoff(count - 1)
  {
    assert Power2(3) == 8 && Power2(7) == 16 * Power2(3);
  }

  ghost predicate Stale(d: Db, a: Id) {
    a in d.attempts && (d.attempts[a].state == Received || d.attempts[a].state == Verified)
  }

  // After the sweep exactly the stale attempts among the rows are rejected, and
  // exactly their quotes are for sale again or, past their time, expired.
  ghost predicate Recovered(d: Db, e: Db, rows: seq<Id>) {
    && e == d.(attempts := e.attempts, quotes := e.quotes)
    && e.attempts.Keys == d.attempts.Keys && e.quotes.Keys == d.quotes.Keys
    && (forall a :: a in d.attempts ==>
          e.attempts[a] == if a in rows && Stale(d, a) then d.attempts[a].(state := Rejected, updated := d.now)
                           else d.attempts[a])
    && (forall q :: q in d.quotes ==>
          e.quotes[q] == if !Freed(d, q, rows) then d.quotes[q]
                         else d.quotes[q].(state := if d.quotes[q].expires <= d.now then Expired else Ready))
  }

  ghost predicate Freed(d: Db, q: Id, rows: seq<Id>) {
    exists a :: a in rows && Stale(d, a) && d.attempts[a].quote == q
  }

  lemma OneRecovers(d: Db, a: Id)
    requires Inv(d)
    ensures RejectStale(d, a).Ok?
    ensures var e := RejectStale(d, a).value;
            Inv(e) && e == if Stale(d, a) && d.attempts[a].quote in d.quotes
                           then TurnedAway(d, a, if d.quotes[d.attempts[a].quote].expires <= d.now then Expired else Ready)
                           else d
    ensures Stale(d, a) ==> d.attempts[a].quote in d.quotes
  {
    RejectStaleSafe(d, a);
    assert Keeps(d, LockstepRule);
    if Stale(d, a) {
      assert Active(d, a);
    }
  }

  lemma {:induction false} AllRecover(d: Db, rows: seq<Id>)
    requires Inv(d)
    ensures RejectAllStale(d, rows).Ok? && Recovered(d, RejectAllStale(d, rows).value, rows)
    decreases |rows|
  {
    if rows != [] {
      OneRecovers(d, rows[0]);
      var next := RejectStale(d, rows[0]).value;
      AllRecover(next, rows[1..]);
      assert Keeps(d, OneActiveRule);
      RecoversOn(d, next, RejectAllStale(next, rows[1..]).value, rows);
    }
  }

  lemma RecoversOn(d: Db, next: Db, e: Db, rows: seq<Id>)
    requires rows != [] && OneActive(d) && Recovered(next, e, rows[1..])
    requires Stale(d, rows[0]) ==> d.attempts[rows[0]].quote in d.quotes
    requires next == if Stale(d, rows[0])
                     then TurnedAway(d, rows[0], if d.quotes[d.attempts[rows[0]].quote].expires <= d.now then Expired else Ready)
                     else d
    ensures Recovered(d, e, rows)
  {
    forall a
      ensures a in rows <==> a == rows[0] || a in rows[1..]
      ensures Stale(next, a) <==> Stale(d, a) && a != rows[0]
    {
    }
    forall q | q in d.quotes
      ensures Freed(d, q, rows) <==> Freed(next, q, rows[1..]) || (Stale(d, rows[0]) && d.attempts[rows[0]].quote == q)
      ensures Freed(next, q, rows[1..]) && Stale(d, rows[0]) ==> d.attempts[rows[0]].quote != q
    {
      FreedOn(d, next, q, rows);
    }
  }

  lemma FreedOn(d: Db, next: Db, q: Id, rows: seq<Id>)
    requires rows != [] && OneActive(d)
    requires next.attempts.Keys == d.attempts.Keys
    requires forall a :: a in d.attempts ==> next.attempts[a].quote == d.attempts[a].quote
    requires forall a :: Stale(next, a) <==> Stale(d, a) && a != rows[0]
    ensures Freed(d, q, rows) <==> Freed(next, q, rows[1..]) || (Stale(d, rows[0]) && d.attempts[rows[0]].quote == q)
    ensures Freed(next, q, rows[1..]) && Stale(d, rows[0]) ==> d.attempts[rows[0]].quote != q
  {
    if a :| a in rows && Stale(d, a) && d.attempts[a].quote == q {
      if a != rows[0] {
        assert a in rows[1..] && Stale(next, a) && next.attempts[a].quote == q;
      }
    }
    if a :| a in rows[1..] && Stale(next, a) && next.attempts[a].quote == q {
      assert a in rows && Stale(d, a) && Active(d, a) && a != rows[0];
      if Stale(d, rows[0]) {
        assert Active(d, rows[0]);
      }
    }
  }

  // A stored report goes exactly when its quote, among the rows, expired more
  // than a quarter of an hour ago and nothing was submitted or paid on it.
  ghost predicate Removed(d: Db, e: Db, rows: seq<Id>) {
    && e == d.(artifacts := e.artifacts) && e.artifacts.Keys == d.artifacts.Keys
    && forall report :: report in d.artifacts ==>
         e.artifacts[report] == if Forsaken(d, report, rows) then d.artifacts[report].(storage := Deleted)
                                else d.artifacts[report]
  }

  ghost predicate Forsaken(d: Db, report: Id, rows: seq<Id>)
    requires report in d.artifacts
  {
    && d.artifacts[report].storage == Available
    && exists q :: q in rows && OutOfUse(d, q) && d.quotes[q].report == report
  }

  ghost predicate OutOfUse(d: Db, q: Id) {
    && q in d.quotes && d.quotes[q].state == Expired && d.quotes[q].expires + 900_000 < d.now && q !in d.entitlements
    && forall a :: a in d.attempts && d.attempts[a].quote == q ==> d.attempts[a].state == Rejected
  }

  lemma {:induction false} RemovalMeans(d: Db, rows: seq<Id>)
    ensures Removed(d, RemoveUnpaid(d, rows), rows)
    decreases |rows|
  {
    if rows != [] {
      var q := rows[0];
      var next := if Removable(d, q) then SetStorage(d, d.quotes[q].report, Deleted) else d;
      RemovalMeans(next, rows[1..]);
      forall p
        ensures OutOfUse(next, p) <==> OutOfUse(d, p)
        ensures p in rows <==> p == q || p in rows[1..]
      {
      }
      assert Removable(d, q) <==>
               OutOfUse(d, q) && d.quotes[q].report in d.artifacts && d.artifacts[d.quotes[q].report].storage == Available;
      forall report | report in d.artifacts
        ensures Forsaken(d, report, rows) <==>
                  (Removable(d, q) && d.quotes[q].report == report) || Forsaken(next, report, rows[1..])
      {
        ForsakenOn(d, next, report, rows);
      }
    }
  }

  lemma ForsakenOn(d: Db, next: Db, report: Id, rows: seq<Id>)
    requires rows != [] && report in d.artifacts
    requires next == if Removable(d, rows[0]) then SetStorage(d, d.quotes[rows[0]].report, Deleted) else d
    ensures Forsaken(d, report, rows) <==>
              (Removable(d, rows[0]) && d.quotes[rows[0]].report == report) || Forsaken(next, report, rows[1..])
  {
    if Forsaken(d, report, rows) {
      var q :| q in rows && OutOfUse(d, q) && d.quotes[q].report == report;
      if q != rows[0] && !(Removable(d, rows[0]) && d.quotes[rows[0]].report == report) {
        assert q in rows[1..] && OutOfUse(next, q);
      }
    }
    if Forsaken(next, report, rows[1..]) {
      var q :| q in rows[1..] && OutOfUse(next, q) && next.quotes[q].report == report;
      assert q in rows && OutOfUse(d, q);
    }
    if Removable(d, rows[0]) && d.quotes[rows[0]].report == report {
      assert rows[0] in rows && OutOfUse(d, rows[0]);
    }
  }

  // A grant is known on the terms it was first recorded with: another policy
  // under its digest, or a known policy or identifier, is refused.
  lemma ActivationMeans(d: Db, grant: Id, authority: Authority)
    ensures var tx := ActivateGrant(d, grant, authority);
            if grant in d.authorities then
              After(d, tx) == d && (tx.Ok? <==> d.authorities[grant].policy == authority.policy)
            else
              && (tx.Ok? <==>
                    && (forall g :: g in d.authorities ==>
                          d.authorities[g].grantId != authority.grantId && d.authorities[g].policy != authority.policy)
                    && authority.amountPer > 0 && 1 <= authority.maxSubmissions <= 1000
                    && authority.maxTotal == authority.amountPer * authority.maxSubmissions
                    && authority.notBefore < authority.expires)
              && (tx.Ok? ==> After(d, tx) == d.(authorities := d.authorities[grant := authority]))
  {
  }
}
