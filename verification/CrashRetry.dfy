/** A service call makes its ledger call in one transaction and writes its row in
    another. If the process stops in between, which calls can simply be repeated? */
module CrashRetry {
  import opened InventoryTypes
  import opened ReceiptNumbers
  import opened Ledger
  import opened LedgerInvariant
  import opened Conservation
  import ExactlyOnce
  import opened Tables
  import opened Services
  import opened Coupling
  import opened Stability
  import opened Guards
  import opened Closing
  import opened Opening
  import opened Aside

  // ----- The event a committed call left behind ----------------------------

  /** Under an unused key, the event of a committed call is the next one. */
  lemma CommittedEvent(db: Db, call: Call)
    requires Sound(db) && Plan(db, call).Ok? && !call.op.Deposit?
    requires forall key :: Uses(call, key) ==> !KeyUsed(db.events, key)
    ensures var after := Invoke(db, call).db;
            && FindEvent(after.events, call.key) == Some(|db.events|) && |db.events| < |after.events|
            && EventFits(after.receipts, after.events[|db.events|])
            && after.events[|db.events|].from == call.op.receipt
  {
    hide Plan, Sound, KeyUsed, Invoke, Reconstruct, FreshReply, WithRelease;
    UnusedKeyCommits(db, call);
    var after, events := Invoke(db, call).db, Plan(db, call).value.events;
    PlanNamesItsReceipt(db, call);
    assert after.events[|db.events|] == events[0];
    FoundIsFirstUnused(db.events, events, call.key);
    SoundEventFits(after, |db.events|);
  }

  lemma SoundEventFits(db: Db, e: nat)
    requires Sound(db) && e < |db.events|
    ensures EventFits(db.receipts, db.events[e])
  {
  }

  lemma PlanNamesItsReceipt(db: Db, call: Call)
    requires Plan(db, call).Ok? && !call.op.Deposit?
    ensures var events := Plan(db, call).value.events;
            && 1 <= |events| <= 2 && events[0].key == call.key && events[0].from == call.op.receipt
            && (|events| == 2 ==> events[1].key != call.key)
  {
    hide SplitSuffixes, Partition, Child, KeyUsed;
    WithReleaseDiffers(call.key);
  }

  lemma FoundIsFirstUnused(events: seq<Event>, more: seq<Event>, key: Key)
    requires 1 <= |more| <= 2 && more[0].key == key && (|more| == 2 ==> more[1].key != key)
    ensures FindEvent(events + more, key) == Some(|events|)
  {
    var all := events + more;
    if |more| == 2 {
      assert all[..|all| - 1] == events + [more[0]];
      assert all[|all| - 1] == more[1];
    }
    assert (events + [more[0]])[|events|].key == key;
    assert |more| == 1 ==> all == events + [more[0]];
  }

  /** Repeating a committed call writes nothing and replies, whatever it was. */
  lemma RepliesAgain(db: Db, call: Call)
    requires Sound(db) && Plan(db, call).Ok? && !call.op.Deposit?
    requires forall key :: Uses(call, key) ==> !KeyUsed(db.events, key)
    ensures var after := Invoke(db, call).db;
            Invoke(after, call).db == after && Invoke(after, call).reply.Ok?
  {
    hide Plan, Sound, KeyUsed, WithRelease, FindEvent, FindKid, Uses, Transact;
    CommittedEvent(db, call);
  }

  // ----- Actions on an open row --------------------------------------------

  lemma TablesAlone(w: World, m: World, a: Action)
    requires m == w.(db := m.db) && ClaimOf(a).Some?
    ensures GateOf(m, a) == GateOf(w, a)
    ensures GateOf(w, a).Proceed? && !a.RejectWithdrawal? ==> LedgerCall(m, a) == LedgerCall(w, a)
  {
    hide CheckLines, TreeMass, AvailableForWithdrawal, Releasable;
  }

  lemma FinishForgetsTheDb(w: World, m: World, a: Action, reply: Reply, other: Reply)
    requires m == w.(db := m.db) && ClaimOf(a).Some? && !a.SettleTrade?
    requires GateOf(m, a).Proceed? && GateOf(w, a).Proceed?
    ensures Finish(m, m.db, a, reply) == Finish(w, m.db, a, other)
  {
    hide CheckLines, TreeMass, AvailableForWithdrawal, Releasable;
  }

  /** Stopping after the ledger commit and repeating the call reaches what an
      uninterrupted call reaches: accept, reject, cancel, expire a pledge, force-release
      a lien, approve, reject, complete a withdrawal, approve, reject, repay a loan,
      cancel a trade. (Settling writes its row inside the ledger transaction.) */
  lemma RetryEqualsOneCall(w: World, a: Action)
    requires Healthy(w) && GateOf(w, a).Proceed? && ClaimOf(a).Some? && LedgerCall(w, a).Some?
    requires !a.SettleTrade? && Priced(a)
    ensures Perform(Interrupted(w, a), a) == Perform(w, a)
    ensures Perform(w, a).verdict.Done?
  {
    hide GateOf, LedgerCall, Plan, Invoke, Perform, Finish, StakeOf, Backs, MayUse, Uses, Sound, LiensSound,
         RequestsSound, WindowSound, PledgesSound, WithdrawalsSound, RowsAged, FreshReply, KeyUsed, Coupled, Healthy;
    RowActionKeepsHealthy(w, a);
    LeafCallCommits(w, a);
    var call := LedgerCall(w, a).value;
    var m := w.(db := Invoke(w.db, call).db);
    assert Interrupted(w, a) == m by { NotAnApproval(a); }
    TablesAlone(w, m, a);
    NotAnApproval(a);
    KeysUnused(w, a);
    RepliesAgain(w.db, call);
    var reply := FreshReply(w.db, call.op);
    PerformIsFinish(w, a, m.db, reply);
    if a.RejectWithdrawal? {
      RejectedIsLetGo(w, m, a);
      PerformIsFinishAlone(m, a);
      FinishForgetsTheDb(w, m, a, Reply.Node(0), reply);
    } else {
      PerformIsFinish(m, a, m.db, Invoke(m.db, call).reply.value);
      FinishForgetsTheDb(w, m, a, Invoke(m.db, call).reply.value, reply);
    }
  }

  lemma NotAnApproval(a: Action)
    requires ClaimOf(a).Some? || Opens(a)
    ensures !a.ApproveReleaseRequest?
  {
  }

  lemma KeysUnused(w: World, a: Action)
    requires Healthy(w) && GateOf(w, a).Proceed? && ClaimOf(a).Some? && LedgerCall(w, a).Some?
    ensures Sound(w.db) && Plan(w.db, LedgerCall(w, a).value).Ok? && !LedgerCall(w, a).value.op.Deposit?
    ensures forall key :: Uses(LedgerCall(w, a).value, key) ==> !KeyUsed(w.db.events, key)
  {
    hide GateOf, LedgerCall, Plan, StakeOf, Backs, MayUse, Uses, Sound, LiensSound, RequestsSound, WindowSound,
         PledgesSound, WithdrawalsSound, KeyUsed, Coupled;
    GuardsSuffice(w, a);
  }

  lemma PerformIsFinish(w: World, a: Action, after: Db, reply: Reply)
    requires GateOf(w, a).Proceed? && !a.ApproveReleaseRequest? && LedgerCall(w, a).Some?
    requires Invoke(w.db, LedgerCall(w, a).value) == Outcome(after, Ok(reply))
    ensures Perform(w, a) == if Finish(w, after, a, reply).Some? then Served(Finish(w, after, a, reply).value, Done)
                             else Served(w.(db := after), Refused(Conflict))
  {
    hide GateOf, LedgerCall, Finish, Invoke;
  }

  lemma PerformIsFinishAlone(w: World, a: Action)
    requires GateOf(w, a).Proceed? && !a.ApproveReleaseRequest? && LedgerCall(w, a).None?
    ensures Perform(w, a)
         == if Finish(w, w.db, a, Reply.Node(0)).Some? then Served(Finish(w, w.db, a, Reply.Node(0)).value, Done)
                             else Served(w, Refused(Conflict))
  {
    hide GateOf, LedgerCall, Finish, Invoke;
  }

  lemma RejectedIsLetGo(w: World, m: World, a: Action)
    requires Healthy(w) && GateOf(w, a).Proceed? && a.RejectWithdrawal? && LedgerCall(w, a).Some?
    requires m == w.(db := Invoke(w.db, LedgerCall(w, a).value).db) && GateOf(m, a).Proceed?
    ensures LedgerCall(m, a).None?
  {
    hide Plan, Invoke, Sound, LiensSound, RequestsSound, WindowSound, PledgesSound, WithdrawalsSound, RowsAged,
         FreshReply, KeyUsed, Coupled, CheckLines, TreeMass, AvailableForWithdrawal, Releasable, MayUse, Uses,
         KeysAhead;
    LeafCallCommits(w, a);
    RowAfterCall(w, a, Plan(w.db, LedgerCall(w, a).value).value.change.row);
    RejectedPointsAtItsLeaf(w, a);
  }

  // ----- Confirming a payment ----------------------------------------------

  /** The child that a committed hold put on file is found again under its event. */
  lemma {:induction false} FirstKidIsFound(receipts: seq<Receipt>, n: nat, e: nat, wanted: set<ReceiptStatus>)
    requires n < |receipts| && receipts[n].sourceEvent == Some(e) && receipts[n].status in wanted
    requires forall i: nat :: i < n ==> receipts[i].sourceEvent != Some(e) || receipts[i].status !in wanted
    ensures FindKid(receipts, e, wanted) == Some(n)
  {
    if n < |receipts| - 1 {
      FirstKidIsFound(receipts[..|receipts| - 1], n, e, wanted);
    } else {
      NoKidBefore(receipts[..n], e, wanted);
    }
  }

  lemma {:induction false} NoKidBefore(receipts: seq<Receipt>, e: nat, wanted: set<ReceiptStatus>)
    requires forall i: nat :: i < |receipts| ==> receipts[i].sourceEvent != Some(e) || receipts[i].status !in wanted
    ensures FindKid(receipts, e, wanted) == None
  {
    if receipts != [] {
      NoKidBefore(receipts[..|receipts| - 1], e, wanted);
    }
  }

  lemma KidNamesItsEvent(db: Db, call: Call)
    requires call.op.Hold? && Plan(db, call).Ok? && Sound(db)
    ensures Plan(db, call).value.change.Split? && |Plan(db, call).value.change.kids| >= 1
    ensures Plan(db, call).value.change.kids[0].sourceEvent == Some(|db.events|)
  {
    hide SplitSuffixes, ChildNumber, BaseReceiptNumber, KeyUsed, Sound;
  }

  lemma HeldChildIsFound(w: World, a: Action)
    requires Healthy(w) && GateOf(w, a).Proceed? && Opens(a) && FreshId(w, a)
    requires LedgerCall(w, a).Some? && Plan(w.db, LedgerCall(w, a).value).Ok?
    ensures FindKid(Invoke(w.db, LedgerCall(w, a).value).db.receipts, |w.db.events|, HELD) == Some(|w.db.receipts|)
  {
    hide GateOf, LedgerCall, Plan, Invoke, StakeOf, MayUse, LiensSound, RequestsSound, WindowSound, PledgesSound,
         WithdrawalsSound, FreshReply, KeyUsed, Coupled, KeysAhead, Uses, Lineage, StatusRules, EventsFit, SharedBases;
    var call := LedgerCall(w, a).value;
    HoldCommits(w, a);
    HoldSplits(w.db, call);
    KidNamesItsEvent(w.db, call);
    var after, n := Invoke(w.db, call).db, |w.db.receipts|;
    var kids := NewRows(Plan(w.db, call).value.change);
    assert after.receipts[n] == kids[0];
    forall i: nat | i < n
      ensures after.receipts[i].sourceEvent != Some(|w.db.events|)
    {
      assert SourcedAt(w.db, i);
      assert Ages(w.db.receipts[i], after.receipts[i]);
    }
    FirstKidIsFound(after.receipts, n, |w.db.events|, HELD);
  }

  lemma HoldRepliesWithItsChild(w: World, a: Action)
    requires Healthy(w) && GateOf(w, a).Proceed? && Opens(a) && FreshId(w, a)
    requires LedgerCall(w, a).Some? && Plan(w.db, LedgerCall(w, a).value).Ok?
    ensures var call := LedgerCall(w, a).value;
            var after := Invoke(w.db, call).db;
            && Invoke(after, call).db == after
            && Invoke(after, call).reply.Ok? && HeldOf(Invoke(after, call).reply.value) == Some(|w.db.receipts|)
            && Invoke(w.db, call).reply.Ok? && HeldOf(Invoke(w.db, call).reply.value) == Some(|w.db.receipts|)
  {
    hide GateOf, LedgerCall, Plan, StakeOf, MayUse, Sound, LiensSound, RequestsSound, WindowSound, PledgesSound,
         WithdrawalsSound, FreshReply, KeyUsed, Coupled, Transact, FindEvent, FindKid, WithRelease;
    var call := LedgerCall(w, a).value;
    HoldCommits(w, a);
    HoldSplits(w.db, call);
    HeldChildIsFound(w, a);
    HealthyWithdrawalsFit(w);
    AsksForAHold(w, a);
    CommittedEvent(w.db, call);
  }

  /** A payment confirmation that took its hold can be repeated. */
  lemma ConfirmationRetries(w: World, a: Action)
    requires Healthy(w) && GateOf(w, a).Proceed? && a.ConfirmPayment?
    requires LedgerCall(w, a).Some? && Plan(w.db, LedgerCall(w, a).value).Ok?
    ensures Perform(Interrupted(w, a), a) == Perform(w, a)
    ensures Perform(w, a).verdict.Done?
  {
    hide GateOf, LedgerCall, Plan, Invoke, Perform, Finish, Healthy;
    OpensOrChangesNothing(w, a);
    HoldRepliesWithItsChild(w, a);
    var call := LedgerCall(w, a).value;
    var after := Invoke(w.db, call).db;
    var m := w.(db := after);
    ConfirmationLooksAtTables(w, m, a);
    PerformIsFinish(w, a, after, Invoke(w.db, call).reply.value);
    PerformIsFinish(m, a, after, Invoke(after, call).reply.value);
    SameHeldSameFinish(w, m, a, Invoke(w.db, call).reply.value, Invoke(after, call).reply.value);
  }

  lemma ConfirmationLooksAtTables(w: World, m: World, a: Action)
    requires m == w.(db := m.db) && a.ConfirmPayment?
    ensures GateOf(m, a) == GateOf(w, a)
    ensures GateOf(w, a).Proceed? ==> LedgerCall(m, a) == LedgerCall(w, a)
  {
  }

  lemma SameHeldSameFinish(w: World, m: World, a: Action, reply: Reply, other: Reply)
    requires m == w.(db := m.db) && a.ConfirmPayment? && GateOf(w, a).Proceed? && GateOf(m, a).Proceed?
    requires HeldOf(reply) == HeldOf(other)
    ensures Finish(m, m.db, a, other) == Finish(w, m.db, a, reply)
  {
  }

  // ----- Creating a pledge, loan or trade ----------------------------------

  /** A create that stops after its hold leaves a leaf held for a row that was never
      written. */
  lemma CreateOrphansItsLeaf(w: World, a: Action)
    requires Healthy(w) && GateOf(w, a).Proceed? && Opens(a) && !a.ConfirmPayment? && FreshId(w, a)
    requires LedgerCall(w, a).Some? && Plan(w.db, LedgerCall(w, a).value).Ok?
    ensures var m, n := Interrupted(w, a), |w.db.receipts|;
            && n < |m.db.receipts| && m.db.receipts[n].status in HELD
            && StakeOf(m, OpenedBy(a)).None?
            && !Claimed(m, n) && !Coupled(m)
            && m.db.receipts[LedgerCall(w, a).value.op.receipt].status == SPLIT
  {
    hide GateOf, LedgerCall, Plan, Invoke, MayUse, Sound, LiensSound, RequestsSound, WindowSound, PledgesSound,
         WithdrawalsSound, FreshReply, KeyUsed, KeysAhead, Uses, WithRelease, RowsAged;
    var call := LedgerCall(w, a).value;
    HoldCommits(w, a);
    HoldSplits(w.db, call);
    NotAnApproval(a);
    var m, n := Interrupted(w, a), |w.db.receipts|;
    assert m == w.(db := Invoke(w.db, call).db);
    var kids := NewRows(Plan(w.db, call).value.change);
    assert m.db.receipts[n] == kids[0];
    assert StakeOf(m, OpenedBy(a)) == StakeOf(w, OpenedBy(a));
  }

  /** In any database, coupled or not: a create that asks, under an unused key, for a
      hold of a receipt that is not ACTIVE is refused and changes nothing. */
  lemma OnlyActiveCanBeOpened(w: World, a: Action)
    requires Opens(a) && GateOf(w, a).Proceed? && LedgerCall(w, a).Some?
    requires var call := LedgerCall(w, a).value;
             && call.op.Hold? && Present(w.db.receipts, call.op.receipt, call.tenant)
             && w.db.receipts[call.op.receipt].status != ACTIVE && !KeyUsed(w.db.events, call.key)
    ensures Perform(w, a) == Served(w, Refused(LedgerRefused(NotTransactable)))
  {
    hide GateOf, LedgerCall, Finish, Plan, KeyUsed;
    var call := LedgerCall(w, a).value;
    OnlyActiveIsHeld(w.db, call);
    ExactlyOnce.FoundIsUsed(w.db.events, call.key);
  }

  lemma OnlyActiveIsHeld(db: Db, call: Call)
    requires call.op.Hold? && Present(db.receipts, call.op.receipt, call.tenant)
    requires db.receipts[call.op.receipt].status != ACTIVE
    ensures Plan(db, call) == Err(NotTransactable)
  {
    hide SplitSuffixes, Partition, Child, KeyUsed;
  }

  // ----- Completing without a price ----------------------------------------

  /** A completion whose fee cannot be computed has consumed the goods by then: the row
      stays approved on a leaf that is gone, until the call is repeated with a price. */
  lemma UnpricedCompletionIsACrash(w: World, id: nat, tenant: string)
    requires Healthy(w) && GateOf(w, CompleteWithdrawal(id, tenant, false)).Proceed?
    ensures var unpriced, priced := CompleteWithdrawal(id, tenant, false), CompleteWithdrawal(id, tenant, true);
            && Perform(w, unpriced).verdict == Refused(Conflict)
            && !Coupled(Perform(w, unpriced).world)
            && Perform(Perform(w, unpriced).world, priced) == Perform(w, priced)
            && Perform(w, priced).verdict.Done?
  {
    hide GateOf, LedgerCall, Perform, Invoke, Healthy, Coupled, Finish;
    var a, b := CompleteWithdrawal(id, tenant, false), CompleteWithdrawal(id, tenant, true);
    CompletionIgnoresThePrice(w, id, tenant);
    RetryEqualsOneCall(w, b);
    UnpricedStops(w, a);
    assert Interrupted(w, b) == Perform(w, a).world;
  }

  /** An unpriced completion does what a stopped one does. */
  lemma UnpricedStops(w: World, a: Action)
    requires Healthy(w) && a.CompleteWithdrawal? && !a.priced && GateOf(w, a).Proceed? && LedgerCall(w, a).Some?
    ensures Perform(w, a) == Served(w.(db := Invoke(w.db, LedgerCall(w, a).value).db), Refused(Conflict))
    ensures !Coupled(Perform(w, a).world)
  {
    hide GateOf, LedgerCall, Plan, Invoke, Perform, Finish, MayUse, Uses, Sound, LiensSound, RequestsSound,
         WindowSound, PledgesSound, WithdrawalsSound, RowsAged, FreshReply, KeyUsed, KeysAhead, Healthy;
    LeafCallCommits(w, a);
    RowAfterCall(w, a, Plan(w.db, LedgerCall(w, a).value).value.change.row);
    var call, c := LedgerCall(w, a).value, ClaimOf(a).value;
    var v := w.(db := Invoke(w.db, call).db);
    UnpricedThrows(w, v.db, a, FreshReply(w.db, call.op));
    PerformIsFinish(w, a, v.db, FreshReply(w.db, call.op));
    assert StakeOf(v, c) == StakeOf(w, c);
    assert !Backs(v.db.receipts, c, StakeOf(v, c).value);
  }

  lemma CompletionIgnoresThePrice(w: World, id: nat, tenant: string)
    requires GateOf(w, CompleteWithdrawal(id, tenant, false)).Proceed?
    ensures GateOf(w, CompleteWithdrawal(id, tenant, true)).Proceed?
    ensures LedgerCall(w, CompleteWithdrawal(id, tenant, false)).Some?
    ensures LedgerCall(w, CompleteWithdrawal(id, tenant, true)) == LedgerCall(w, CompleteWithdrawal(id, tenant, false))
  {
  }

  lemma UnpricedThrows(w: World, after: Db, a: Action, reply: Reply)
    requires a.CompleteWithdrawal? && !a.priced && GateOf(w, a).Proceed?
    ensures Finish(w, after, a, reply).None?
  {
  }

  // ----- Accepting, with time passing --------------------------------------

  function Later(w: World, ms: nat): World {
    w.(now := w.now + ms)
  }

  lemma AcceptLooksAtTheClock(w: World, m: World, a: Action, ms: nat)
    requires a.AcceptPledge? && GateOf(w, a).Proceed? && m == Later(w, ms).(db := m.db)
    ensures a.id in w.pledges
    ensures GateOf(m, a).Proceed? <==> w.now + ms <= w.pledges[a.id].expiresAt
    ensures !GateOf(m, a).Proceed? ==> GateOf(m, a).Stop?
    ensures GateOf(m, a).Proceed? ==> LedgerCall(m, a) == LedgerCall(w, a)
  {
  }

  lemma LaterInterrupted(w: World, a: Action, ms: nat)
    requires a.AcceptPledge? && GateOf(w, a).Proceed? && GateOf(Later(w, ms), a).Proceed? && LedgerCall(w, a).Some?
    requires LedgerCall(Later(w, ms), a) == LedgerCall(w, a)
    ensures Interrupted(Later(w, ms), a) == Later(Interrupted(w, a), ms)
  {
    hide GateOf, LedgerCall, Invoke;
  }

  /** An accept that stopped before its row was written can be repeated exactly until the
      pledge expires, and then does what it would have done uninterrupted. */
  lemma AcceptRetriesUntilExpiry(w: World, a: Action, ms: nat)
    requires Healthy(w) && a.AcceptPledge? && GateOf(w, a).Proceed?
    ensures var again := Perform(Later(Interrupted(w, a), ms), a);
            && a.id in w.pledges
            && (again.verdict.Done? <==> w.now + ms <= w.pledges[a.id].expiresAt)
            && (again.verdict.Done? ==>
                  again.world == Perform(Later(w, ms), a).world && Perform(Later(w, ms), a).verdict.Done?)
  {
    hide GateOf, LedgerCall, Invoke, Perform, Healthy;
    AcceptHasACall(w, a);
    var m := Later(Interrupted(w, a), ms);
    AcceptLooksAtTheClock(w, m, a, ms);
    AcceptLooksAtTheClock(w, Later(w, ms), a, ms);
    hide Interrupted;
    if GateOf(m, a).Proceed? {
      TimeKeepsHealthy(w, ms);
      LaterInterrupted(w, a, ms);
      RetryEqualsOneCall(Later(w, ms), a);
    } else {
      StoppedIsRefused(m, a);
    }
  }

  lemma AcceptHasACall(w: World, a: Action)
    requires a.AcceptPledge? && GateOf(w, a).Proceed?
    ensures LedgerCall(w, a).Some? && !a.ApproveReleaseRequest? && ClaimOf(a).Some?
  {
  }

  lemma StoppedIsRefused(w: World, a: Action)
    requires GateOf(w, a).Stop?
    ensures Perform(w, a).verdict.Refused?
  {
  }

  /** The ways a pending pledge is let go. */
  predicate LetsGo(b: Action) {
    b.CancelPledge? || b.RejectPledge? || b.ExpirePledge?
  }

  function LastStep(b: Action): Word
    requires LetsGo(b)
  {
    if b.CancelPledge? then CancelWord else if b.RejectPledge? then RejectWord else ExpireWord
  }

  function LastStatus(b: Action): PledgeStatus
    requires LetsGo(b)
  {
    if b.CancelPledge? then PledgeStatus.Cancelled else if b.RejectPledge? then PledgeStatus.Rejected
      else PledgeStatus.Expired
  }

  /** An accept that stopped before its row was written is undone by whatever lets the
      pledge go: its expiry, its rejection, its cancellation. The leaf, held for a lien by
      then, is released all the same, and nothing is left over. */
  lemma CrashedAcceptIsUndone(w: World, a: Action, b: Action, ms: nat)
    requires Healthy(w) && a.AcceptPledge? && GateOf(w, a).Proceed?
    requires LetsGo(b) && b.id == a.id && GateOf(Later(w, ms), b).Proceed?
    ensures var undone := Perform(Later(Interrupted(w, a), ms), b);
            && a.id in w.pledges
            && undone.verdict.Done? && Healthy(undone.world)
            && undone.world.pledges == w.pledges[a.id := w.pledges[a.id].(status := LastStatus(b))]
            && undone.world.liens == w.liens
  {
    hide Plan, Invoke, Perform, MayUse, Sound, LiensSound, RequestsSound, WindowSound, PledgesSound, WithdrawalsSound,
         RowsAged, FreshReply, KeyUsed, KeysAhead, Healthy, StakeOf, Coupled, GateOf, LedgerCall;
    AcceptHasACall(w, a);
    AcceptCalls(w, a);
    var w2, accept := Later(w, ms), LedgerCall(w, a).value;
    var m := Later(Interrupted(w, a), ms);
    TimeKeepsHealthy(w, ms);
    LeafCallCommits(w, a);
    RowAfterCall(w, a, Plan(w.db, accept).value.change.row);
    PledgeStake(w, a.id);
    assert m == w2.(db := Invoke(w.db, accept).db);
    UndoneAccept(w2, m, b, accept);
  }

  lemma AcceptCalls(w: World, a: Action)
    requires a.AcceptPledge? && GateOf(w, a).Proceed? && LedgerCall(w, a).Some?
    ensures a.id in w.pledges && w.pledges[a.id].status.Pending? && w.pledges[a.id].held.Some?
    ensures LedgerCall(w, a).value.key == PledgeKey(AcceptWord, a.id) && !LedgerCall(w, a).value.op.TransferAndRelease?
  {
  }

  lemma PledgeStake(w: World, id: nat)
    requires id in w.pledges && w.pledges[id].status.Pending? && w.pledges[id].held.Some?
    ensures StakeOf(w, Claim(PledgeClaim, id))
         == Some(Stake(w.pledges[id].held.value, w.pledges[id].quantity, w.pledges[id].tenant, false))
  {
  }

  lemma LettingGoCalls(m: World, b: Action)
    requires LetsGo(b) && GateOf(m, b).Proceed? && b.id in m.pledges && m.pledges[b.id].held.Some?
    ensures LedgerCall(m, b)
         == Some(ReleaseOf(m.pledges[b.id].tenant, m.pledges[b.id].held.value, PledgeKey(LastStep(b), b.id)))
    ensures forall after, reply :: Finish(m, after, b, reply) == Some(SetPledge(m.(db := after), b.id, LastStatus(b)))
  {
  }

  lemma ReleasesAnyway(m: World, b: Action)
    requires LetsGo(b) && GateOf(m, b).Proceed? && b.id in m.pledges && m.pledges[b.id].held.Some?
    requires Sound(m.db) && Present(m.db.receipts, m.pledges[b.id].held.value, m.pledges[b.id].tenant)
    requires m.db.receipts[m.pledges[b.id].held.value].status == HELD_LIEN
    requires !KeyUsed(m.db.events, PledgeKey(LastStep(b), b.id))
    ensures var at := m.pledges[b.id].held.value;
            var call := ReleaseOf(m.pledges[b.id].tenant, at, PledgeKey(LastStep(b), b.id));
            var after := Invoke(m.db, call).db;
            && Perform(m, b) == Served(SetPledge(m.(db := after), b.id, LastStatus(b)), Done)
            && Sound(after) && RowsAged(m.db.receipts, after.receipts)
            && after.receipts == m.db.receipts[at := m.db.receipts[at].(status := ACTIVE, approval := APPROVED)]
            && (forall key :: KeyUsed(after.events, key) <==> KeyUsed(m.db.events, key) || key == call.key)
  {
    hide Plan, Invoke, Sound, RowsAged, FreshReply, KeyUsed, GateOf, LedgerCall, Finish, Perform;
    LettingGoCalls(m, b);
    var call := LedgerCall(m, b).value;
    ReleasesALien(m.db, call);
    assert forall key :: Uses(call, key) <==> key == call.key;
    UnusedKeyCommits(m.db, call);
    CallAgesRows(m.db, call);
    PerformIsFinish(m, b, Invoke(m.db, call).db, FreshReply(m.db, call.op));
  }

  lemma UndoneAccept(w: World, m: World, b: Action, accept: Call)
    requires Healthy(w) && LetsGo(b) && GateOf(w, b).Proceed?
    requires b.id in w.pledges && w.pledges[b.id].status.Pending? && w.pledges[b.id].held.Some?
    requires accept.key == PledgeKey(AcceptWord, b.id) && !accept.op.TransferAndRelease?
    requires m == w.(db := m.db) && Sound(m.db) && RowsAged(w.db.receipts, m.db.receipts)
    requires forall key :: KeyUsed(m.db.events, key) <==> KeyUsed(w.db.events, key) || Uses(accept, key)
    requires var at := w.pledges[b.id].held.value;
             && at < |w.db.receipts| && w.db.receipts[at].tenant == w.pledges[b.id].tenant
             && m.db.receipts == w.db.receipts[at := w.db.receipts[at].(status := HELD_LIEN)]
    ensures var undone := Perform(m, b);
            && undone.verdict.Done? && Healthy(undone.world)
            && undone.world.pledges == w.pledges[b.id := w.pledges[b.id].(status := LastStatus(b))]
            && undone.world.liens == w.liens
  {
    hide Healthy, Invoke, Perform, Sound, RowsAged, KeyUsed, GateOf, MayUse;
    StepIsAhead(w, b);
    TablesAlone(w, m, b);
    ReleasesAnyway(m, b);
    var v := Perform(m, b).world;
    AgedTwice(w.db.receipts, m.db.receipts, v.db.receipts);
    LettingGoKeepsHealthy(w, v, b, accept);
  }

  lemma StepIsAhead(w: World, b: Action)
    requires Healthy(w) && LetsGo(b) && b.id in w.pledges && w.pledges[b.id].status.Pending?
    ensures !KeyUsed(w.db.events, PledgeKey(LastStep(b), b.id))
  {
    hide Sound, Coupled, LiensSound, RequestsSound, PledgesSound, WithdrawalsSound, WindowSound, KeyUsed, MayUse;
    PendingMayStep(w, b.id, LastStep(b));
  }

  lemma LettingGoKeepsHealthy(w: World, v: World, b: Action, accept: Call)
    requires Healthy(w) && LetsGo(b) && b.id in w.pledges && w.pledges[b.id].status.Pending?
    requires w.pledges[b.id].held.Some?
    requires accept.key == PledgeKey(AcceptWord, b.id) && !accept.op.TransferAndRelease?
    requires v == w.(db := v.db, pledges := w.pledges[b.id := w.pledges[b.id].(status := LastStatus(b))])
    requires Sound(v.db) && RowsAged(w.db.receipts, v.db.receipts)
    requires forall key :: KeyUsed(v.db.events, key) <==>
               KeyUsed(w.db.events, key) || Uses(accept, key) || key == PledgeKey(LastStep(b), b.id)
    requires var at := w.pledges[b.id].held.value;
             && at < |w.db.receipts|
             && v.db.receipts == w.db.receipts[at := w.db.receipts[at].(status := ACTIVE, approval := APPROVED)]
    ensures Healthy(v)
  {
    hide MayUse, Sound, LiensSound, RequestsSound, WindowSound, WithdrawalsSound, RowsAged, KeyUsed, Coupled, StakeOf,
         Uses, KeysAhead;
    RestingPartsSurvive(w, v.db, w.liens);
    LetGoClaim(w, v, b.id, LastStatus(b));
    CoupledAfterLettingGo(w, v, Claim(PledgeClaim, b.id), v.db.receipts[w.pledges[b.id].held.value]);
    UndoneKeysAhead(w, v, b, accept);
  }

  lemma LetGoClaim(w: World, v: World, id: nat, status: PledgeStatus)
    requires id in w.pledges && w.pledges[id].status.Pending? && w.pledges[id].held.Some? && !status.Pending?
    requires v == w.(db := v.db, pledges := w.pledges[id := w.pledges[id].(status := status)])
    ensures var c := Claim(PledgeClaim, id);
            && StakeOf(w, c).Some? && StakeOf(w, c).value.leaf == w.pledges[id].held.value && StakeOf(v, c).None?
            && OnlyChanged(w, v, {c})
  {
  }

  lemma PendingMayStep(w: World, id: nat, step: Word)
    requires id in w.pledges && w.pledges[id].status.Pending? && step != CreateWord
    ensures MayUse(w, PledgeKey(step, id))
  {
  }

  lemma ReleasesALien(db: Db, call: Call)
    requires call.op.Release? && Present(db.receipts, call.op.receipt, call.tenant)
    requires db.receipts[call.op.receipt].status == HELD_LIEN
    ensures Plan(db, call).Ok?
    ensures Plan(db, call).value.change
         == Rewrite(call.op.receipt, db.receipts[call.op.receipt].(status := ACTIVE, approval := APPROVED))
  {
    hide SplitSuffixes, Partition, Child, KeyUsed;
  }

  lemma UndoneKeysAhead(w: World, v: World, b: Action, accept: Call)
    requires KeysAhead(w) && LetsGo(b) && b.id in w.pledges && w.pledges[b.id].status.Pending?
    requires accept.key == PledgeKey(AcceptWord, b.id) && !accept.op.TransferAndRelease?
    requires v == w.(db := v.db, pledges := w.pledges[b.id := w.pledges[b.id].(status := LastStatus(b))])
    requires forall key :: KeyUsed(v.db.events, key) <==>
               KeyUsed(w.db.events, key) || Uses(accept, key) || key == PledgeKey(LastStep(b), b.id)
    ensures KeysAhead(v)
  {
    hide KeyUsed;
    forall key | MayUse(v, key)
      ensures !KeyUsed(v.db.events, key)
    {
      assert MayUse(w, key);
    }
  }

  // ----- A stopped call, and then another one on the same row ----------------

  lemma LeafIsGone(db: Db, call: Call)
    requires || call.op.Release? || call.op.Consume? || call.op.ApproveHold?
             || call.op.TransitionPledgeToLien? || call.op.TransferAndRelease?
    requires Present(db.receipts, call.op.receipt, call.tenant) && db.receipts[call.op.receipt].status !in HELD
    ensures Plan(db, call) == Err(InvalidTransition)
  {
    hide SplitSuffixes, Partition, Child, KeyUsed;
  }

  lemma RowCallKind(w: World, b: Action)
    requires GateOf(w, b).Proceed? && ClaimOf(b).Some? && LedgerCall(w, b).Some?
    ensures var op := LedgerCall(w, b).value.op;
            op.Release? || op.Consume? || op.ApproveHold? || op.TransitionPledgeToLien? || op.TransferAndRelease?
  {
    hide CheckLines, TreeMass, AvailableForWithdrawal, Releasable;
  }

  lemma NoSettlement(w: World, a: Action)
    requires GateOf(w, a).Proceed? && ClaimOf(a).Some? && LedgerCall(w, a).Some? && !a.SettleTrade?
    ensures !LedgerCall(w, a).value.op.TransferAndRelease?
  {
    hide CheckLines, TreeMass, AvailableForWithdrawal, Releasable;
  }

  lemma UnplannedIsRefused(m: World, b: Action)
    requires GateOf(m, b).Proceed? && ClaimOf(b).Some? && LedgerCall(m, b).Some?
    requires var call := LedgerCall(m, b).value;
             !call.op.Deposit? && !KeyUsed(m.db.events, call.key) && Plan(m.db, call) == Err(InvalidTransition)
    ensures Perform(m, b) == Served(m, Refused(LedgerRefused(InvalidTransition)))
  {
    hide GateOf, LedgerCall, Plan, Finish, KeyUsed;
    ExactlyOnce.FoundIsUsed(m.db.events, LedgerCall(m, b).value.key);
  }

  /** A closing call that stopped before its row was written has let the leaf go, and the
      row still looks open. Any other call on that row that goes to the ledger is refused
      there and changes nothing: the row stays as it is until the stopped call itself is
      repeated. */
  lemma OtherCallIsRefused(w: World, a: Action, b: Action)
    requires Healthy(w) && GateOf(w, a).Proceed? && ClaimOf(a).Some? && LedgerCall(w, a).Some? && !KeepsLeaf(a)
    requires !a.SettleTrade?
    requires ClaimOf(b) == ClaimOf(a) && !b.RejectWithdrawal? && GateOf(w, b).Proceed? && LedgerCall(w, b).Some?
    requires LedgerCall(w, b).value.key != LedgerCall(w, a).value.key
    ensures Perform(Interrupted(w, a), b) == Served(Interrupted(w, a), Refused(LedgerRefused(InvalidTransition)))
  {
    hide GateOf, LedgerCall, Plan, Invoke, Perform, StakeOf, MayUse, Sound, LiensSound, RequestsSound, WindowSound,
         PledgesSound, WithdrawalsSound, FreshReply, KeyUsed, Coupled, Healthy, Rank, WithRelease;
    NotAnApproval(a);
    LeafCallCommits(w, a);
    RowAfterCall(w, a, Plan(w.db, LedgerCall(w, a).value).value.change.row);
    GuardsSuffice(w, b);
    var m, call := Interrupted(w, a), LedgerCall(w, b).value;
    TablesAlone(w, m, b);
    RowCallKind(w, b);
    NoSettlement(w, a);
    assert m.db.receipts[call.op.receipt].status !in HELD;
    LeafIsGone(m.db, call);
    assert Uses(call, call.key);
    KeysUnused(w, b);
    UnplannedIsRefused(m, b);
  }

  /** Rejecting a withdrawal looks at its receipt first, and asks the ledger for nothing
      once that is not held: after a stopped completion the goods are gone and the
      withdrawal can still be marked rejected. */
  lemma StoppedCompletionCanBeRejected(w: World, id: nat, tenant: string, priced: bool)
    requires Healthy(w) && GateOf(w, CompleteWithdrawal(id, tenant, priced)).Proceed?
    ensures var m := Interrupted(w, CompleteWithdrawal(id, tenant, priced));
            && id < |w.withdrawals| && w.withdrawals[id].receipt < |m.db.receipts|
            && m.db.receipts[w.withdrawals[id].receipt].status == WITHDRAWN
            && Perform(m, RejectWithdrawal(id, tenant)) == Served(SetWithdrawal(m, id, WithdrawalStatus.Rejected), Done)
  {
    var a := CompleteWithdrawal(id, tenant, priced);
    CompletionCalls(w, id, tenant, priced);
    hide GateOf, LedgerCall, Plan, Invoke, StakeOf, MayUse, Sound, LiensSound, RequestsSound, WindowSound,
         PledgesSound, WithdrawalsSound, FreshReply, KeyUsed, Coupled, Healthy, Rank, WithRelease, Perform;
    LeafCallCommits(w, a);
    ConsumedIsWithdrawn(w.db, LedgerCall(w, a).value);
    RejectsAlone(Interrupted(w, a), id, tenant);
  }

  lemma CompletionCalls(w: World, id: nat, tenant: string, priced: bool)
    requires GateOf(w, CompleteWithdrawal(id, tenant, priced)).Proceed?
    ensures id < |w.withdrawals| && w.withdrawals[id].tenant == tenant && w.withdrawals[id].status.Approved?
    ensures LedgerCall(w, CompleteWithdrawal(id, tenant, priced))
         == Some(Call(tenant, WithdrawalKey(id, ConsumeWord), Consume(w.withdrawals[id].receipt)))
  {
  }

  lemma ConsumedIsWithdrawn(db: Db, call: Call)
    requires call.op.Consume? && Plan(db, call).Ok? && Plan(db, call).value.change.Rewrite?
    ensures Plan(db, call).value.change.at == call.op.receipt && Plan(db, call).value.change.row.status == WITHDRAWN
  {
    hide SplitSuffixes, Partition, Child, KeyUsed;
  }

  lemma RejectsAlone(m: World, id: nat, tenant: string)
    requires id < |m.withdrawals| && m.withdrawals[id].tenant == tenant && m.withdrawals[id].status.Approved?
    requires m.withdrawals[id].receipt < |m.db.receipts| && m.db.receipts[m.withdrawals[id].receipt].status == WITHDRAWN
    ensures Perform(m, RejectWithdrawal(id, tenant)) == Served(SetWithdrawal(m, id, WithdrawalStatus.Rejected), Done)
  {
  }
}
