/** Actions that open a row by holding part of a receipt: they take exactly what they
    asked for, or change nothing at all. */
module Opening {
  import opened InventoryTypes
  import opened Ledger
  import opened LedgerInvariant
  import opened ExactlyOnce
  import opened Tables
  import opened Services
  import opened Coupling
  import opened Stability
  import opened Closing

  predicate Opens(a: Action) {
    a.CreatePledge? || a.ConfirmPayment? || a.CreateLoan? || a.CreateTrade?
  }

  /** The row an opening action opens. */
  function OpenedBy(a: Action): Claim
    requires Opens(a)
  {
    match a
    case CreatePledge(id, _, _, _, _, _, _) => Claim(PledgeClaim, id)
    case ConfirmPayment(id, _, _) => Claim(WithdrawalClaim, id)
    case CreateLoan(id, _, _, _, _) => Claim(LoanClaim, id)
    case CreateTrade(id, _, _, _, _) => Claim(TradeClaim, id)
  }

  /** A new row draws an identifier nobody has. */
  predicate FreshId(w: World, a: Action) {
    && (a.CreatePledge? ==> a.id !in w.pledges)
    && (a.CreateLoan? ==> a.id !in w.loans)
    && (a.CreateTrade? ==> a.id !in w.trades)
  }

  /** The hold an opening action asks for. */
  ghost predicate HoldsFor(w: World, a: Action, call: Call)
    requires Opens(a)
  {
    && call.op.Hold? && call.op.heldStatus == StatusFor(OpenedBy(a).kind) && call.op.txnId == Uuid(OpenedBy(a).id)
    && Present(w.db.receipts, call.op.receipt, call.tenant)
  }

  lemma HoldingAsksForAHold(w: World, a: Action)
    requires GateOf(w, a).Proceed? && (a.CreatePledge? || a.ConfirmPayment?) && FreshId(w, a)
    requires WithdrawalsFit(w.db.receipts, w.withdrawals)
    ensures LedgerCall(w, a).Some? && HoldsFor(w, a, LedgerCall(w, a).value)
    ensures MayUse(w, LedgerCall(w, a).value.key) && !MayRepeat(w, LedgerCall(w, a).value.key)
    ensures StakeOf(w, OpenedBy(a)).None?
  {
    hide CheckLines, TreeMass, AvailableForWithdrawal, Releasable;
    if a.ConfirmPayment? {
      assert WithdrawalFits(w.db.receipts, w.withdrawals[a.id]);
    }
  }

  lemma LendingAsksForAHold(w: World, a: Action)
    requires GateOf(w, a).Proceed? && (a.CreateLoan? || a.CreateTrade?) && FreshId(w, a)
    ensures LedgerCall(w, a).Some? && HoldsFor(w, a, LedgerCall(w, a).value)
    ensures MayUse(w, LedgerCall(w, a).value.key) && !MayRepeat(w, LedgerCall(w, a).value.key)
    ensures StakeOf(w, OpenedBy(a)).None?
  {
    hide CheckLines, TreeMass, AvailableForWithdrawal, Releasable;
  }

  lemma AsksForAHold(w: World, a: Action)
    requires GateOf(w, a).Proceed? && Opens(a) && FreshId(w, a)
    requires WithdrawalsFit(w.db.receipts, w.withdrawals)
    ensures LedgerCall(w, a).Some? && HoldsFor(w, a, LedgerCall(w, a).value)
    ensures forall key :: Uses(LedgerCall(w, a).value, key) ==> MayUse(w, key) && !MayRepeat(w, key)
    ensures StakeOf(w, OpenedBy(a)).None?
  {
    hide GateOf, LedgerCall, StakeOf, MayUse, MayRepeat, FreshId, WithdrawalsFit;
    if a.CreatePledge? || a.ConfirmPayment? {
      HoldingAsksForAHold(w, a);
    } else {
      LendingAsksForAHold(w, a);
    }
  }

  /** A hold the ledger refuses leaves no trace. */
  lemma RefusedHoldChangesNothing(w: World, a: Action)
    requires Healthy(w) && GateOf(w, a).Proceed? && Opens(a) && FreshId(w, a)
    requires LedgerCall(w, a).Some? && Plan(w.db, LedgerCall(w, a).value).Err?
    ensures Perform(w, a) == Served(w, Refused(LedgerRefused(Plan(w.db, LedgerCall(w, a).value).error)))
  {
    hide GateOf, LedgerCall, Plan, Finish, StakeOf, MayUse, Sound, LiensSound, RequestsSound, WindowSound,
         PledgesSound, WithdrawalsSound, KeyUsed, Coupled, WithRelease;
    var call := LedgerCall(w, a).value;
    HealthyWithdrawalsFit(w);
    AsksForAHold(w, a);
    assert Uses(call, call.key);
    FoundIsUsed(w.db.events, call.key);
  }

  lemma HoldSplits(db: Db, call: Call)
    requires call.op.Hold? && Plan(db, call).Ok?
    ensures var x, n := call.op.receipt, |db.receipts|;
            && x < n && Plan(db, call).value.change.Split? && Plan(db, call).value.change.at == x
            && db.receipts[x].status == ACTIVE
            && var kids := Plan(db, call).value.change.kids;
               && 1 <= |kids| <= 2
               && kids[0].status == call.op.heldStatus && kids[0].txnId == Some(call.op.txnId)
               && kids[0].quantity == call.op.quantity > 0 && kids[0].tenant == call.tenant
               && kids[0].approval == PENDING
               && (|kids| == 2 ==> kids[1].status == ACTIVE)
    ensures FreshReply(db, call.op).HoldReply? && FreshReply(db, call.op).held == Some(|db.receipts|)
  {
    hide SplitSuffixes, KeyUsed;
  }

  lemma HoldCommits(w: World, a: Action)
    requires Healthy(w) && GateOf(w, a).Proceed? && Opens(a) && FreshId(w, a)
    requires LedgerCall(w, a).Some? && Plan(w.db, LedgerCall(w, a).value).Ok?
    ensures HoldsFor(w, a, LedgerCall(w, a).value) && StakeOf(w, OpenedBy(a)).None?
    ensures var call := LedgerCall(w, a).value;
            var after, kids := Invoke(w.db, call).db, NewRows(Plan(w.db, call).value.change);
            && Invoke(w.db, call).reply == Ok(FreshReply(w.db, call.op))
            && after.receipts == w.db.receipts[call.op.receipt := Superseded(w.db.receipts[call.op.receipt])] + kids
            && Sound(after)
            && RowsAged(w.db.receipts, after.receipts)
            && (forall key :: KeyUsed(after.events, key) <==> KeyUsed(w.db.events, key) || Uses(call, key))
  {
    hide GateOf, LedgerCall, Plan, Invoke, StakeOf, MayUse, Sound, LiensSound, RequestsSound, WindowSound,
         PledgesSound, WithdrawalsSound, RowsAged, FreshReply, KeyUsed, WithRelease, Coupled;
    var call := LedgerCall(w, a).value;
    HealthyWithdrawalsFit(w);
    AsksForAHold(w, a);
    UnusedKeyCommits(w.db, call);
    CallAgesRows(w.db, call);
    HoldSplits(w.db, call);
  }

  lemma FinishOpens(w: World, after: Db, a: Action, reply: Reply, leaf: nat)
    requires GateOf(w, a).Proceed? && Opens(a) && FreshId(w, a) && LedgerCall(w, a).Some?
    requires reply.HoldReply? && reply.held == Some(leaf)
    ensures Finish(w, after, a, reply).Some?
    ensures var v, c := Finish(w, after, a, reply).value, OpenedBy(a);
            && v.db == after && v.now == w.now && v.requests == w.requests && v.liens == w.liens
            && StakeOf(v, c).Some? && StakeOf(v, c).value.leaf == leaf
            && LedgerCall(w, a).value.op.Hold? && StakeOf(v, c).value.quantity == LedgerCall(w, a).value.op.quantity
            && StakeOf(v, c).value.tenant == LedgerCall(w, a).value.tenant
  {
    hide CheckLines, TreeMass, AvailableForWithdrawal;
  }

  lemma HoldingTouchesOneClaim(w: World, after: Db, a: Action, reply: Reply, c: Claim)
    requires GateOf(w, a).Proceed? && (a.CreatePledge? || a.ConfirmPayment?)
    requires Finish(w, after, a, reply).Some? && c != OpenedBy(a)
    ensures StakeOf(Finish(w, after, a, reply).value, c) == StakeOf(w, c)
  {
    hide CheckLines, TreeMass, AvailableForWithdrawal, Releasable;
  }

  lemma LendingTouchesOneClaim(w: World, after: Db, a: Action, reply: Reply, c: Claim)
    requires GateOf(w, a).Proceed? && (a.CreateLoan? || a.CreateTrade?)
    requires Finish(w, after, a, reply).Some? && c != OpenedBy(a)
    ensures StakeOf(Finish(w, after, a, reply).value, c) == StakeOf(w, c)
  {
    hide CheckLines, TreeMass, AvailableForWithdrawal, Releasable;
  }

  lemma OpeningTouchesOneClaim(w: World, after: Db, a: Action, reply: Reply, c: Claim)
    requires GateOf(w, a).Proceed? && Opens(a) && Finish(w, after, a, reply).Some? && c != OpenedBy(a)
    ensures StakeOf(Finish(w, after, a, reply).value, c) == StakeOf(w, c)
  {
    hide GateOf, Finish, StakeOf;
    if a.CreatePledge? || a.ConfirmPayment? {
      HoldingTouchesOneClaim(w, after, a, reply, c);
    } else {
      LendingTouchesOneClaim(w, after, a, reply, c);
    }
  }

  lemma OpeningSpendsKey(w: World, after: Db, a: Action, reply: Reply, key: Key)
    requires GateOf(w, a).Proceed? && Opens(a) && FreshId(w, a) && Finish(w, after, a, reply).Some?
    requires LedgerCall(w, a).Some?
    ensures MayUse(Finish(w, after, a, reply).value, key) ==> MayUse(w, key) && !Uses(LedgerCall(w, a).value, key)
  {
    hide CheckLines, TreeMass, AvailableForWithdrawal;
  }

  lemma OpeningKeepsPledges(w: World, after: Db, a: Action, reply: Reply)
    requires GateOf(w, a).Proceed? && Opens(a) && FreshId(w, a) && Finish(w, after, a, reply).Some?
    requires PledgesSound(w.pledges, w.liens)
    ensures var v := Finish(w, after, a, reply).value; PledgesSound(v.pledges, v.liens)
  {
    hide CheckLines, TreeMass, AvailableForWithdrawal;
  }

  lemma OpeningKeepsWithdrawals(w: World, after: Db, a: Action, reply: Reply, leaf: nat)
    requires GateOf(w, a).Proceed? && Opens(a) && Finish(w, after, a, reply).Some?
    requires reply.HoldReply? && reply.held == Some(leaf)
    requires WithdrawalsSound(after.receipts, w.now, w.withdrawals) && WindowSound(after.receipts, w.now, w.withdrawals)
    requires a.ConfirmPayment? ==>
               leaf < |after.receipts| && after.receipts[leaf].tenant == a.tenant && a.id < |w.withdrawals|
               && after.receipts[leaf].quantity == w.withdrawals[a.id].quantity
    ensures var v := Finish(w, after, a, reply).value;
            WithdrawalsSound(after.receipts, w.now, v.withdrawals) && WindowSound(after.receipts, w.now, v.withdrawals)
  {
    hide CheckLines, TreeMass, AvailableForWithdrawal, WithdrawalsSound, WindowSound;
    if a.ConfirmPayment? {
      WithdrawalIsSound(w, after, a.id);
      WithdrawalMovesOn(after.receipts, w.now, w.withdrawals, a.id, Finish(w, after, a, reply).value.withdrawals[a.id]);
    }
  }

  /** What an opening action takes, it takes for the row it opens. */
  lemma OpeningKeepsHealthy(w: World, a: Action)
    requires Healthy(w) && GateOf(w, a).Proceed? && Opens(a) && FreshId(w, a)
    requires LedgerCall(w, a).Some? && Plan(w.db, LedgerCall(w, a).value).Ok?
    ensures Perform(w, a).verdict.Done? && Healthy(Perform(w, a).world)
  {
    hide GateOf, LedgerCall, Plan, Invoke, Perform, Finish, StakeOf, MayUse, Uses, Sound, LiensSound, RequestsSound,
         WindowSound, KeysAhead, PledgesSound, WithdrawalsSound, RowsAged, FreshReply, KeyUsed, Coupled;
    HoldCommits(w, a);
    var call, c, leaf := LedgerCall(w, a).value, OpenedBy(a), |w.db.receipts|;
    HoldSplits(w.db, call);
    var after, kids := Invoke(w.db, call).db, NewRows(Plan(w.db, call).value.change);
    var reply := FreshReply(w.db, call.op);
    RestingPartsSurvive(w, after, w.liens);
    FinishOpens(w, after, a, reply, leaf);
    var v := Finish(w, after, a, reply).value;
    UnfoldPerform(w, a);
    forall d | d != c
      ensures StakeOf(v, d) == StakeOf(w, d)
    {
      OpeningTouchesOneClaim(w, after, a, reply, d);
    }
    forall key
      ensures MayUse(v, key) ==> MayUse(w, key) && !Uses(call, key)
    {
      OpeningSpendsKey(w, after, a, reply, key);
    }
    OpeningKeepsPledges(w, after, a, reply);
    assert after.receipts[leaf] == kids[0];
    ConfirmHolds(w, a);
    OpeningKeepsWithdrawals(w, after, a, reply, leaf);
    CoupledAfterHolding(w, v, c, call.op.receipt, kids);
    KeysAheadAfter(w, v, call);
  }

  lemma ConfirmHolds(w: World, a: Action)
    requires GateOf(w, a).Proceed? && LedgerCall(w, a).Some?
    ensures a.ConfirmPayment? ==>
              && a.id < |w.withdrawals| && w.withdrawals[a.id].tenant == a.tenant
              && w.withdrawals[a.id].status.PendingPayment?
              && LedgerCall(w, a).value == Call(a.tenant, WithdrawalKey(a.id, HoldWord),
                   Hold(w.withdrawals[a.id].receipt, w.withdrawals[a.id].quantity, HELD_WITHDRAWAL, WITHDRAWAL,
                        Uuid(a.id)))
  {
    hide CheckLines, TreeMass, AvailableForWithdrawal;
  }

  /** Opening a row succeeds exactly when the ledger can hold; otherwise nothing changes. */
  lemma OpensOrChangesNothing(w: World, a: Action)
    requires Healthy(w) && GateOf(w, a).Proceed? && Opens(a) && FreshId(w, a)
    ensures LedgerCall(w, a).Some?
    ensures Perform(w, a).verdict.Done? <==> Plan(w.db, LedgerCall(w, a).value).Ok?
    ensures Perform(w, a).verdict.Refused? ==> Perform(w, a).world == w
    ensures Healthy(Perform(w, a).world)
  {
    HealthyWithdrawalsFit(w);
    AsksForAHold(w, a);
    hide GateOf, LedgerCall, Perform, Plan, Healthy;
    if Plan(w.db, LedgerCall(w, a).value).Ok? {
      OpeningKeepsHealthy(w, a);
    } else {
      RefusedHoldChangesNothing(w, a);
    }
  }

  /** What the ledger asks of a hold. */
  lemma HoldPlansIff(db: Db, call: Call)
    requires call.op.Hold? && Present(db.receipts, call.op.receipt, call.tenant)
    requires RowRules(db.receipts[call.op.receipt])
    requires 0 < call.op.quantity <= db.receipts[call.op.receipt].quantity
    ensures Plan(db, call).Ok? <==> db.receipts[call.op.receipt].status == ACTIVE
  {
    hide SplitSuffixes, Partition, Child, KeyUsed;
  }

  /** A payment confirmation past its own check loses only to another hold (or to an
      expiry) of the receipt: it succeeds exactly if the receipt is still ACTIVE. */
  lemma ConfirmationSucceedsIffActive(w: World, a: Action)
    requires Healthy(w) && a.ConfirmPayment? && GateOf(w, a).Proceed?
    ensures a.id < |w.withdrawals| && w.withdrawals[a.id].receipt < |w.db.receipts|
    ensures Perform(w, a).verdict.Done? <==> w.db.receipts[w.withdrawals[a.id].receipt].status == ACTIVE
    ensures Perform(w, a).verdict.Refused? ==> Perform(w, a).world == w
  {
    hide GateOf, LedgerCall, Plan, Perform, StakeOf, MayUse, LiensSound, RequestsSound, WindowSound, PledgesSound,
         KeyUsed, Coupled, KeysAhead;
    OpensOrChangesNothing(w, a);
    ConfirmHolds(w, a);
    WithdrawalIsSound(w, w.db, a.id);
    SoundParts(w.db);
    assert RowRules(w.db.receipts[w.withdrawals[a.id].receipt]);
    HoldPlansIff(w.db, LedgerCall(w, a).value);
  }
}
