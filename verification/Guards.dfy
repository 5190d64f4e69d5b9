/** Status guards imply ledger guards: a service call that passes the check on its own
    row finds its leaf in a state the ledger accepts, under keys nobody has used. */
module Guards {
  import opened InventoryTypes
  import opened Ledger
  import opened LedgerInvariant
  import opened Tables
  import opened Services
  import opened Coupling

  /** The open row an action carries forward; none for the actions that open one. */
  function ClaimOf(a: Action): Option<Claim> {
    match a
    case CancelPledge(id, _) => Some(Claim(PledgeClaim, id))
    case RejectPledge(id, _) => Some(Claim(PledgeClaim, id))
    case ExpirePledge(id) => Some(Claim(PledgeClaim, id))
    case AcceptPledge(id, _, _) => Some(Claim(PledgeClaim, id))
    case ForceReleaseLien(id, _) => Some(Claim(LienClaim, id))
    case ApproveWithdrawal(id, _) => Some(Claim(WithdrawalClaim, id))
    case RejectWithdrawal(id, _) => Some(Claim(WithdrawalClaim, id))
    case CompleteWithdrawal(id, _, _) => Some(Claim(WithdrawalClaim, id))
    case ApproveLoan(id, _) => Some(Claim(LoanClaim, id))
    case RejectLoan(id, _) => Some(Claim(LoanClaim, id))
    case RepayLoan(id, _) => Some(Claim(LoanClaim, id))
    case SettleTrade(id, _, _, _) => Some(Claim(TradeClaim, id))
    case CancelTrade(id, _) => Some(Claim(TradeClaim, id))
    case _ => None
  }

  /** The call is about the leaf of the row, on behalf of the row's tenant. */
  ghost predicate ForItsLeaf(w: World, c: Claim, call: Call) {
    && !call.op.Deposit?
    && StakeOf(w, c).Some?
    && call.op.receipt == StakeOf(w, c).value.leaf
    && call.tenant == StakeOf(w, c).value.tenant
  }

  lemma ActsOnItsLeaf(w: World, a: Action)
    requires LiensFit(w.liens) && WithdrawalsFit(w.db.receipts, w.withdrawals)
    requires GateOf(w, a).Proceed? && ClaimOf(a).Some? && LedgerCall(w, a).Some?
    ensures ForItsLeaf(w, ClaimOf(a).value, LedgerCall(w, a).value)
  {
    hide CheckLines, Plan, TreeMass, AvailableForWithdrawal;
    if a.RejectWithdrawal? {
      assert WithdrawalFits(w.db.receipts, w.withdrawals[a.id]);
    } else if a.ForceReleaseLien? {
      assert LienFits(w.liens[a.id]);
    }
  }

  lemma ReleasedTradeKey(id: nat)
    ensures WithRelease(TradeKey(id, TransferWord))
         == Part(Text(TradeWord), Part(Uuid(id), Part(Text(TransferWord), Part(Text(ReleaseWord), End))))
  {
    assert WithRelease(Part(Text(TransferWord), End)) == Part(Text(TransferWord), Part(Text(ReleaseWord), End));
  }

  predicate OfPledgesOrLiens(a: Action) {
    a.CancelPledge? || a.RejectPledge? || a.ExpirePledge? || a.AcceptPledge? || a.ForceReleaseLien?
  }

  lemma PledgeKeysAreAhead(w: World, a: Action)
    requires GateOf(w, a).Proceed? && OfPledgesOrLiens(a) && LedgerCall(w, a).Some?
    ensures forall key :: Uses(LedgerCall(w, a).value, key) ==> MayUse(w, key)
  {
    hide Plan, CheckLines, TreeMass, AvailableForWithdrawal, Releasable;
  }

  lemma OtherKeysAreAhead(w: World, a: Action)
    requires GateOf(w, a).Proceed? && ClaimOf(a).Some? && !OfPledgesOrLiens(a) && LedgerCall(w, a).Some?
    requires ForItsLeaf(w, ClaimOf(a).value, LedgerCall(w, a).value)
    ensures forall key :: Uses(LedgerCall(w, a).value, key) ==> MayUse(w, key)
  {
    hide CheckLines, Plan, TreeMass, AvailableForWithdrawal, Releasable;
    if a.SettleTrade? {
      ReleasedTradeKey(a.id);
    }
  }

  lemma KeysAreAhead(w: World, a: Action)
    requires GateOf(w, a).Proceed? && ClaimOf(a).Some? && LedgerCall(w, a).Some?
    requires ForItsLeaf(w, ClaimOf(a).value, LedgerCall(w, a).value)
    ensures forall key :: Uses(LedgerCall(w, a).value, key) ==> MayUse(w, key)
  {
    hide GateOf, LedgerCall, ForItsLeaf, MayUse, Uses;
    if OfPledgesOrLiens(a) {
      PledgeKeysAreAhead(w, a);
    } else {
      OtherKeysAreAhead(w, a);
    }
  }

  /** What the ledger asks of the leaf. */
  lemma LeafIsReady(w: World, a: Action)
    requires GateOf(w, a).Proceed? && ClaimOf(a).Some? && LedgerCall(w, a).Some?
    requires ForItsLeaf(w, ClaimOf(a).value, LedgerCall(w, a).value)
    requires HeldFor(w.db.receipts, ClaimOf(a).value, StakeOf(w, ClaimOf(a).value).value)
    ensures Plan(w.db, LedgerCall(w, a).value).Ok? && Plan(w.db, LedgerCall(w, a).value).value.change.Rewrite?
  {
    hide CheckLines, TreeMass, AvailableForWithdrawal, SplitSuffixes, Partition, Child, KeyUsed;
  }

  /** Whatever leaves weigh, any accept, cancel, reject, expire, force-release, approve,
      complete, repay or settle call whose own check passes finds its leaf ready, under
      keys still unused. */
  lemma GuardsFindTheLeaf(w: World, a: Action)
    requires Attached(w) && GateOf(w, a).Proceed? && ClaimOf(a).Some? && LedgerCall(w, a).Some?
    ensures var call := LedgerCall(w, a).value;
            && ForItsLeaf(w, ClaimOf(a).value, call)
            && HeldFor(w.db.receipts, ClaimOf(a).value, StakeOf(w, ClaimOf(a).value).value)
            && Plan(w.db, call).Ok? && Plan(w.db, call).value.change.Rewrite?
            && forall key :: Uses(call, key) ==> MayUse(w, key) && !MayRepeat(w, key)
  {
    hide GateOf, LedgerCall, Plan, StakeOf, HeldFor, MayUse, MayRepeat, Uses, Framed, LiensFit, RequestsSound,
         KeysFree, Claimed, PledgesSound, WithdrawalsFit, LineEventsFit;
    ActsOnItsLeaf(w, a);
    KeysAreAhead(w, a);
    LeafIsReady(w, a);
    NoLineKeys(w, a);
  }

  lemma NoLineKeys(w: World, a: Action)
    requires GateOf(w, a).Proceed? && ClaimOf(a).Some? && LedgerCall(w, a).Some?
    ensures forall key :: Uses(LedgerCall(w, a).value, key) ==> !MayRepeat(w, key)
  {
    hide CheckLines, Plan, TreeMass, AvailableForWithdrawal, Releasable;
    if a.SettleTrade? {
      ReleasedTradeKey(a.id);
    }
  }

  /** In every healthy state, any accept, cancel, reject, expire, force-release,
      approve, complete, repay or settle call whose own check passes finds its leaf
      ready, under keys still unused. */
  lemma GuardsSuffice(w: World, a: Action)
    requires Healthy(w) && GateOf(w, a).Proceed? && ClaimOf(a).Some? && LedgerCall(w, a).Some?
    ensures var call := LedgerCall(w, a).value;
            && ForItsLeaf(w, ClaimOf(a).value, call)
            && Backs(w.db.receipts, ClaimOf(a).value, StakeOf(w, ClaimOf(a).value).value)
            && Plan(w.db, call).Ok? && Plan(w.db, call).value.change.Rewrite?
            && forall key :: Uses(call, key) ==> MayUse(w, key)
  {
    hide GateOf, LedgerCall, Plan, StakeOf, MayUse, MayRepeat, Uses, Sound, LiensSound, RequestsSound, WindowSound,
         KeysAhead, Claimed, PledgesSound, WithdrawalsSound, Attached;
    HealthyIsAttached(w);
    GuardsFindTheLeaf(w, a);
  }
}
