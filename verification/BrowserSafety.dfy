// What the browser's payment guard is worth, resting on the ledger: a session
// pays again over its own open payment only after the save that concludes an
// attempt failed, and which turns may clear the stored guard.

module BrowserSafety {
  import opened Wrappers
  import opened LedgerRows
  import opened LedgerInvariant
  import opened SystemInvariant
  import opened ConfirmationSteps
  import opened Guarantees
  import opened Housekeeping
  import opened BrowserFlow
  import P = Protocol

  ghost predicate SubmittedFor(db: Db, q: Id) {
    exists a :: SubmittedIn(db, a) && db.attempts[a].quote == q
  }

  // The intended meaning of a clear guard: nothing submitted, or paid for.
  ghost predicate NothingOpen(j: Joint) {
    !SubmittedFor(j.server.db, j.tab.quote) || j.tab.quote in j.server.db.entitlements
  }

  // ------------------------------------------------------------------- invariant

  ghost predicate JointInv(j: Joint) {
    TabInv(j.server.db, j.tab) && Guarantees.Reachable(j.server) && WorldInv(j.server)
  }

  lemma OpenedInv(q: Id)
    ensures JointInv(Opened(q)) && Held(Opened(q).server.db, Opened(q).tab)
    ensures InStep(Opened(q).tab) && Once(Opened(q).tab)
  {
    assert P.Run(P.INITIAL, []) == P.INITIAL;
    ReachableHolds(P.INITIAL);
  }

  lemma LedgerSound(j: Joint)
    requires JointInv(j)
    ensures Sound(j.server.db, j.tab.quote)
  {
    assert Keeps(j.server.db, DeliveryRule);
    if QuoteIs(j.server.db, j.tab.quote, Paid) {
      PaidMeansReceipt(j.server, j.tab.quote);
    }
    if j.tab.quote in j.server.db.entitlements {
      EntitledNotExpired(j.server.db, j.tab.quote);
    }
  }

  // The gateway running on never opens what was closed.
  lemma ServerRuns(j: Joint, actions: seq<P.Action>)
    requires JointInv(j)
    ensures var w := P.Run(j.server, actions);
            && JointInv(j.(server := w))
            && (Closed(j.server.db, j.tab.quote) ==> Closed(w.db, j.tab.quote))
  {
    var first :| j.server == P.Run(P.INITIAL, first);
    RunConcat(P.INITIAL, first, actions);
    RunKeeps(j.server, actions);
    assert P.Run(j.server, actions) == P.Run(P.INITIAL, first + actions);
  }

  lemma StepKeepsJoint(j: Joint, e: Event)
    requires JointInv(j) && Step(j, e).Some?
    ensures JointInv(Step(j, e).value)
  {
    if e.Server? {
      ServerRuns(j, e.actions);
    } else {
      LedgerSound(j);
      ReactKeeps(j.server.db, j.tab, e);
    }
  }

  lemma StepHolds(j: Joint, e: Event)
    requires JointInv(j) && Held(j.server.db, j.tab) && Step(j, e).Some? && !Lapse(e)
    ensures Held(Step(j, e).value.server.db, Step(j, e).value.tab)
  {
    if e.Server? {
      ServerRuns(j, e.actions);
    } else {
      LedgerSound(j);
      ReactHolds(j.server.db, j.tab, e);
    }
  }

  lemma {:induction false} RunKeepsJoint(j: Joint, events: seq<Event>)
    requires JointInv(j) && BrowserFlow.Run(j, events).Some?
    ensures JointInv(BrowserFlow.Run(j, events).value)
    decreases |events|
  {
    if events != [] {
      RunKeepsJoint(j, events[..|events| - 1]);
      StepKeepsJoint(BrowserFlow.Run(j, events[..|events| - 1]).value, events[|events| - 1]);
    }
  }

  lemma {:induction false} RunHolds(j: Joint, events: seq<Event>)
    requires JointInv(j) && Held(j.server.db, j.tab) && BrowserFlow.Run(j, events).Some?
    requires forall e :: e in events ==> !Lapse(e)
    ensures var k := BrowserFlow.Run(j, events).value; JointInv(k) && Held(k.server.db, k.tab)
    decreases |events|
  {
    if events != [] {
      var init := events[..|events| - 1];
      RunHolds(j, init);
      StepKeepsJoint(BrowserFlow.Run(j, init).value, events[|events| - 1]);
      StepHolds(BrowserFlow.Run(j, init).value, events[|events| - 1]);
    }
  }

  lemma {:induction false} RunInStep(j: Joint, events: seq<Event>)
    requires JointInv(j) && InStep(j.tab) && BrowserFlow.Run(j, events).Some?
    requires forall e :: e in events ==> Stores(e)
    ensures InStep(BrowserFlow.Run(j, events).value.tab)
    decreases |events|
  {
    if events != [] {
      var init := events[..|events| - 1];
      RunInStep(j, init);
      RunKeepsJoint(j, init);
      var before := BrowserFlow.Run(j, init).value;
      ReactInStep(before.server.db, before.tab, events[|events| - 1]);
    }
  }

  lemma ReachableInv(j: Joint)
    requires BrowserFlow.Reachable(j)
    ensures JointInv(j)
  {
    var q, events :| BrowserFlow.Run(Opened(q), events) == Some(j);
    OpenedInv(q);
    RunKeepsJoint(Opened(q), events);
  }

  lemma UnlapsedHolds(j: Joint)
    requires ReachableUnlapsed(j)
    ensures JointInv(j) && Held(j.server.db, j.tab)
  {
    var q, events :| (forall e :: e in events ==> !Lapse(e)) && BrowserFlow.Run(Opened(q), events) == Some(j);
    OpenedInv(q);
    RunHolds(Opened(q), events);
  }

  // ------------------------------------------------------------------ paying once

  // The raised guard is in storage before a paid request goes out.
  lemma StartedBeforePaid(j: Joint)
    requires BrowserFlow.Reachable(j) && BrowserFlow.Step(j, Pay).Some?
    ensures j.tab.saved.guard == Started && BrowserFlow.Step(j, Pay).value.tab.saved.guard == Started
  {
    ReachableInv(j);
  }

  // Unless the save that concludes a paid attempt failed, a session sends no
  // second paid request while its first is open: not after a lost answer, a
  // reload, a refusal or any other failing save.
  lemma PaysOnce(j: Joint)
    requires ReachableUnlapsed(j) && BrowserFlow.Step(j, Pay).Some?
    ensures !Pending(j.server.db, j.tab)
  {
    UnlapsedHolds(j);
  }

  // From here the session can send another paid request over its open one,
  // without a further lapse.
  ghost predicate CanPayAgain(j: Joint) {
    exists events :: PaysAgain(j, events)
  }

  ghost predicate PaysAgain(j: Joint, events: seq<Event>) {
    && (forall e :: e in events ==> !Lapse(e))
    && BrowserFlow.Run(j, events).Some?
    && var k := BrowserFlow.Run(j, events).value;
       Pending(k.server.db, k.tab) && BrowserFlow.Step(k, Pay).Some?
  }

  // And that is exact: once a paid request of an open quote is concluded, lost
  // or answered, the session can pay over it if and only if that save failed.
  lemma PaysAgainExactly(j: Joint, e: Event)
    requires BrowserFlow.Reachable(j) && (e.LoseAnswer? || e.Answer?) && BrowserFlow.Step(j, e).Some?
    requires Pending(j.server.db, j.tab)
    ensures CanPayAgain(BrowserFlow.Step(j, e).value) <==> !e.stored
  {
    var after := BrowserFlow.Step(j, e).value;
    ReachableInv(j);
    LedgerSound(j);
    StepKeepsJoint(j, e);
    ConcludingHolds(j.server.db, j.tab, e);
    if e.stored {
      HeldPaysNoMore(after);
    } else {
      var events := PressesAndPays(after);
      assert PaysAgain(after, events);
    }
  }

  lemma HeldPaysNoMore(j: Joint)
    requires JointInv(j) && Held(j.server.db, j.tab)
    ensures !CanPayAgain(j)
  {
    forall events
      ensures !PaysAgain(j, events)
    {
      if PaysAgain(j, events) {
        RunHolds(j, events);
      }
    }
  }

  // The page shows the quote as ready, without a guard and with nothing going on.
  ghost predicate OffersPayment(j: Joint) {
    && JointInv(j) && j.tab.phase.Idle? && j.tab.flow.guard == Clear
    && j.tab.poll == None && j.tab.shown == Some(Ready)
  }

  // Then the user can press and a paid request goes out, for all the page's
  // clock says.
  lemma PressesAndPays(j: Joint) returns (events: seq<Event>)
    requires OffersPayment(j)
    ensures (forall e :: e in events ==> !Lapse(e)) && Unslipped(j, events)
    ensures BrowserFlow.Run(j, events).Some?
    ensures var k := BrowserFlow.Run(j, events).value;
            && k.server == j.server && k.tab.quote == j.tab.quote && k.tab.paid == j.tab.paid
            && BrowserFlow.Step(k, Pay).Some?
  {
    var press, none: seq<Event> := Press(j.server.db.quotes[j.tab.quote].expires - 1), [];
    var pressed := BrowserFlow.Step(j, press).value;
    var raised := BrowserFlow.Step(pressed, Raise(true)).value;
    RunOne(j, press, pressed);
    RunTwo(j, press, Raise(true), pressed, raised);
    assert BrowserFlow.Run(j, none) == Some(j);
    assert [press][..0] == none && [press, Raise(true)][..1] == [press];
    assert Unslipped(j, none) && Unslipped(j, [press]);
    events := [press, Raise(true)];
  }

  lemma RunOne(j: Joint, e: Event, k: Joint)
    requires BrowserFlow.Step(j, e) == Some(k)
    ensures BrowserFlow.Run(j, [e]) == Some(k)
  {
    assert [e][..0] == [];
    assert BrowserFlow.Run(j, []) == Some(j);
  }

  lemma RunTwo(j: Joint, e: Event, f: Event, k: Joint, l: Joint)
    requires BrowserFlow.Run(j, [e]) == Some(k) && BrowserFlow.Step(k, f) == Some(l)
    ensures BrowserFlow.Run(j, [e, f]) == Some(l)
  {
    assert [e, f][..1] == [e];
  }

  // ------------------------------------------------------ one paid request ever

  ghost predicate OnceInv(j: Joint) {
    JointInv(j) && Held(j.server.db, j.tab) && Once(j.tab)
  }

  lemma StepOnce(j: Joint, e: Event)
    requires OnceInv(j) && BrowserFlow.Step(j, e).Some? && !Slips(j.tab, e)
    ensures OnceInv(BrowserFlow.Step(j, e).value) && (j.tab.paid ==> BrowserFlow.Step(j, e).value.tab.paid)
  {
    StepKeepsJoint(j, e);
    if e.Server? {
      ServerRuns(j, e.actions);
    } else {
      LedgerSound(j);
      ReactOnce(j.server.db, j.tab, e);
    }
  }

  lemma {:induction false} RunOnce(j: Joint, events: seq<Event>)
    requires OnceInv(j) && Unslipped(j, events) && BrowserFlow.Run(j, events).Some?
    ensures var k := BrowserFlow.Run(j, events).value; OnceInv(k) && (j.tab.paid ==> k.tab.paid)
    decreases |events|
  {
    if events != [] {
      var init := events[..|events| - 1];
      RunOnce(j, init);
      StepOnce(BrowserFlow.Run(j, init).value, events[|events| - 1]);
    }
  }

  lemma UnslippedOnce(j: Joint)
    requires ReachableUnslipped(j)
    ensures OnceInv(j)
  {
    var q, events :| Unslipped(Opened(q), events) && BrowserFlow.Run(Opened(q), events) == Some(j);
    OpenedInv(q);
    RunOnce(Opened(q), events);
  }

  // Unless a save slipped, a session ever sends one paid request, whatever has
  // become of the first.
  lemma PaysOnceEver(j: Joint)
    requires ReachableUnslipped(j) && BrowserFlow.Step(j, Pay).Some?
    ensures !j.tab.paid
  {
    UnslippedOnce(j);
    SigningIsUnpaid(j.server.db, j.tab);
  }

  lemma {:induction false} StoredUnslipped(j: Joint, events: seq<Event>)
    requires BrowserFlow.Run(j, events).Some? && forall e :: e in events ==> Stores(e)
    ensures Unslipped(j, events)
    decreases |events|
  {
    if events != [] {
      var init := events[..|events| - 1];
      StoredUnslipped(j, init);
      StoringNeverSlips(BrowserFlow.Run(j, init).value.tab, events[|events| - 1]);
    }
  }

  // While storage works, no save slips.
  lemma StoredIsUnslipped(j: Joint)
    requires ReachableStored(j)
    ensures ReachableUnslipped(j)
  {
    var q, events :| (forall e :: e in events ==> Stores(e)) && BrowserFlow.Run(Opened(q), events) == Some(j);
    StoredUnslipped(Opened(q), events);
  }

  // With working storage, a session ever sends one paid request.
  lemma StoredPaysOnceEver(j: Joint)
    requires ReachableStored(j) && BrowserFlow.Step(j, Pay).Some?
    ensures !j.tab.paid
  {
    StoredIsUnslipped(j);
    PaysOnceEver(j);
  }

  // From here a paid request can go out, without a further slip.
  ghost predicate CanPayEver(j: Joint) {
    exists events :: PaysEver(j, events)
  }

  ghost predicate PaysEver(j: Joint, events: seq<Event>) {
    && Unslipped(j, events) && BrowserFlow.Run(j, events).Some?
    && BrowserFlow.Step(BrowserFlow.Run(j, events).value, Pay).Some?
  }

  // And that is exact: a session that has paid can pay again after a turn if and
  // only if that turn slipped.
  lemma PaysEverExactly(j: Joint, e: Event)
    requires ReachableUnslipped(j) && j.tab.paid && BrowserFlow.Step(j, e).Some?
    ensures CanPayEver(BrowserFlow.Step(j, e).value) <==> Slips(j.tab, e)
  {
    var after := BrowserFlow.Step(j, e).value;
    UnslippedOnce(j);
    if Slips(j.tab, e) {
      SlipShowsReady(j.server.db, j.tab, e);
      StepKeepsJoint(j, e);
      var events := PressesAndPays(after);
      assert PaysEver(after, events);
    } else {
      StepOnce(j, e);
      OncePaysNoMore(after);
    }
  }

  lemma OncePaysNoMore(j: Joint)
    requires OnceInv(j) && j.tab.paid
    ensures !CanPayEver(j)
  {
    forall events
      ensures !PaysEver(j, events)
    {
      if PaysEver(j, events) {
        RunOnce(j, events);
      }
    }
  }

  // A reload after a lost answer finds the raised guard again.
  lemma ReloadRestores(j: Joint)
    requires BrowserFlow.Reachable(j) && j.tab.phase.Requested?
    ensures var after := BrowserFlow.Step(j, LoseAnswer(false)).value;
            BrowserFlow.Step(after, Reload).value.tab.flow.guard == Started
  {
    ReachableInv(j);
  }

  // A clear guard in storage over an own payment means that it is not open.
  lemma ClearMeansClosed(j: Joint)
    requires ReachableUnlapsed(j) && j.tab.paid && j.tab.saved.guard == Clear
    ensures Closed(j.server.db, j.tab.quote)
  {
    UnlapsedHolds(j);
  }

  // Closed stays closed: an expired quote is never settled, a paid one keeps
  // its entitlement.
  lemma ClosedForever(j: Joint, actions: seq<P.Action>)
    requires BrowserFlow.Reachable(j) && Closed(j.server.db, j.tab.quote)
    ensures var w := P.Run(j.server, actions);
            && Closed(w.db, j.tab.quote)
            && (QuoteIs(j.server.db, j.tab.quote, Expired) ==>
                  forall i :: 0 <= i < |w.settles| ==>
                    w.settles[i] in w.db.attempts && w.db.attempts[w.settles[i]].quote != j.tab.quote)
  {
    ReachableInv(j);
    var first :| j.server == P.Run(P.INITIAL, first);
    RunConcat(P.INITIAL, first, actions);
    if QuoteIs(j.server.db, j.tab.quote, Expired) {
      ExpiredForever(first, actions, j.tab.quote);
    } else {
      EntitlementsStay(first, actions, j.tab.quote);
    }
  }

  // ------------------------------------------------------------ clearing the guard

  // A quote read as ready has had no settlement submitted.
  lemma ReadyMeansUntouched(w: P.World, q: Id)
    requires Guarantees.Reachable(w) && QuoteIs(w.db, q, Ready)
    ensures !SubmittedFor(w.db, q)
    ensures forall i :: 0 <= i < |w.settles| ==> w.settles[i] in w.db.attempts && w.db.attempts[w.settles[i]].quote != q
  {
    ReachableHolds(w);
    assert Keeps(w.db, LockstepRule);
    assert forall a :: SubmittedIn(w.db, a) ==> Active(w.db, a);
    forall i | 0 <= i < |w.settles|
      ensures w.settles[i] in w.db.attempts && w.db.attempts[w.settles[i]].quote != q
    {
      var a := w.settles[i];
      assert a in w.settles && SubmittedIn(w.db, a);
    }
  }

  lemma ClosedMeansNothingOpen(j: Joint)
    requires JointInv(j) && Closed(j.server.db, j.tab.quote)
    ensures NothingOpen(j)
  {
    if QuoteIs(j.server.db, j.tab.quote, Expired) {
      ExpiredIdle(j.server, j.tab.quote);
    }
  }

  // A turn that clears the stored guard.
  ghost predicate ResetBy(j: Joint, e: Event, s: Shape) {
    BrowserFlow.Reachable(j) && Resets(j.server.db, j.tab, e) && ShapeOf(j.tab, e) == s
  }

  // Every reset of this shape leaves nothing open.
  ghost predicate AlwaysSound(s: Shape) {
    forall j, e :: ResetBy(j, e, s) ==> NothingOpen(BrowserFlow.Step(j, e).value)
  }

  // Every turn that clears the stored guard has a shape, and what the page
  // holds in a safe shape is enough, whatever saves failed before.
  lemma SafeShapesAreSound(s: Shape)
    requires SafeShape(s)
    ensures AlwaysSound(s)
  {
    forall j, e | ResetBy(j, e, s)
      ensures NothingOpen(BrowserFlow.Step(j, e).value)
    {
      SafeReset(j, e);
    }
  }

  lemma SafeReset(j: Joint, e: Event)
    requires BrowserFlow.Reachable(j) && Resets(j.server.db, j.tab, e) && SafeShape(ShapeOf(j.tab, e))
    ensures NothingOpen(BrowserFlow.Step(j, e).value)
  {
    ReachableInv(j);
    LedgerSound(j);
    ResetsHaveShapes(j.server.db, j.tab, e);
    ClosedMeansNothingOpen(j);
  }

  lemma EveryResetHasAShape(j: Joint, e: Event)
    requires BrowserFlow.Reachable(j) && Resets(j.server.db, j.tab, e)
    ensures ShapeOf(j.tab, e) != NoReset
  {
    ReachableInv(j);
    LedgerSound(j);
    ResetsHaveShapes(j.server.db, j.tab, e);
  }

  // While storage works, the one reset that can leave something open is that of
  // a cancelled attempt which read the quote as ready, and then this session
  // has never sent a paid request: another one has paid meanwhile.
  lemma WorkingStorage(j: Joint, e: Event)
    requires ReachableStored(j) && Stores(e) && Resets(j.server.db, j.tab, e)
    ensures !NothingOpen(BrowserFlow.Step(j, e).value) ==> ShapeOf(j.tab, e) == ByCancelled(Ready) && !j.tab.paid
  {
    StoredHolds(j);
    LedgerSound(j);
    ResetsHaveShapes(j.server.db, j.tab, e);
    if Closed(j.server.db, j.tab.quote) {
      ClosedMeansNothingOpen(j);
    }
  }

  lemma StoredHolds(j: Joint)
    requires ReachableStored(j)
    ensures JointInv(j) && Held(j.server.db, j.tab) && InStep(j.tab)
  {
    var q, events :| (forall f :: f in events ==> Stores(f)) && BrowserFlow.Run(Opened(q), events) == Some(j);
    OpenedInv(q);
    RunInStep(Opened(q), events);
    RunHolds(Opened(q), events);
  }

  // And what that attempt read was untouched: whatever is open by the time it
  // clears its guard was submitted by another session in between.
  lemma CancelledReadsUntouched(j: Joint)
    requires BrowserFlow.Reachable(j) && j.tab.phase.Cancelled? && BrowserFlow.Step(j, Fetch(false)).Some?
    requires BrowserFlow.Step(j, Fetch(false)).value.tab.phase.seen == Some(Ready)
    ensures !SubmittedFor(j.server.db, j.tab.quote)
    ensures ReachableUnlapsed(j) ==> !Pending(j.server.db, j.tab)
  {
    ReachableInv(j);
    ReadyMeansUntouched(j.server, j.tab.quote);
    if ReachableUnlapsed(j) {
      UnlapsedHolds(j);
    }
  }

  // Whatever the guard says, the gateway settles the quote at most once.
  lemma StillSettledOnce(j: Joint, i: nat, k: nat)
    requires BrowserFlow.Reachable(j) && i < |j.server.settles| && k < |j.server.settles|
    requires j.server.settles[i] in j.server.db.attempts && j.server.settles[k] in j.server.db.attempts
    requires j.server.db.attempts[j.server.settles[i]].quote == j.tab.quote
    requires j.server.db.attempts[j.server.settles[k]].quote == j.tab.quote
    ensures i == k
  {
    ReachableInv(j);
    if i < k {
      SettleOnce(j.server, i, k);
    } else if k < i {
      SettleOnce(j.server, k, i);
    }
  }
}
