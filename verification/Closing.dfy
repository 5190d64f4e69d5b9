/** Actions on an open row keep the invariant: those that close it and let its leaf go,
    and those that keep the leaf held for the same row or for the lien a pledge
    becomes. */
module Closing {
  import opened InventoryTypes
  import opened Mass
  import opened Ledger
  import opened LedgerInvariant
  import opened Tables
  import opened Services
  import opened Coupling
  import opened Stability
  import opened Guards

  /** The actions after which the leaf stays held. */
  predicate KeepsLeaf(a: Action) {
    a.AcceptPledge? || a.ApproveWithdrawal? || a.ApproveLoan?
  }

  /** The fee of a completed withdrawal has a policy to go by. */
  predicate Priced(a: Action) {
    a.CompleteWithdrawal? ==> a.priced
  }

  lemma RowAfterCall(w: World, a: Action, row: Receipt)
    requires GateOf(w, a).Proceed? && ClaimOf(a).Some? && LedgerCall(w, a).Some?
    requires ForItsLeaf(w, ClaimOf(a).value, LedgerCall(w, a).value)
    requires HeldFor(w.db.receipts, ClaimOf(a).value, StakeOf(w, ClaimOf(a).value).value)
    requires Plan(w.db, LedgerCall(w, a).value).Ok?
    requires Plan(w.db, LedgerCall(w, a).value).value.change == Rewrite(StakeOf(w, ClaimOf(a).value).value.leaf, row)
    ensures var r := w.db.receipts[StakeOf(w, ClaimOf(a).value).value.leaf];
            if a.AcceptPledge? then row == r.(status := HELD_LIEN)
            else if KeepsLeaf(a) then row == r.(approval := APPROVED)
            else row.status in {ACTIVE, WITHDRAWN}
  {
    hide CheckLines, TreeMass, AvailableForWithdrawal, SplitSuffixes, Partition, Child, KeyUsed;
  }

  lemma RewritesItsLeaf(db: Db, call: Call)
    requires Plan(db, call).Ok? && Plan(db, call).value.change.Rewrite?
    ensures !call.op.Deposit? && Plan(db, call).value.change.at == call.op.receipt < |db.receipts|
  {
    hide SplitSuffixes, Partition, Child, KeyUsed;
  }

  /** The ledger call of an action on an open row commits, and everything that rests on
      the receipt table survives it. */
  lemma LeafCallCommits(w: World, a: Action)
    requires Healthy(w) && GateOf(w, a).Proceed? && ClaimOf(a).Some? && LedgerCall(w, a).Some?
    ensures var call, c := LedgerCall(w, a).value, ClaimOf(a).value;
            && ForItsLeaf(w, c, call) && Backs(w.db.receipts, c, StakeOf(w, c).value)
            && Plan(w.db, call).Ok? && Plan(w.db, call).value.change.Rewrite?
            && var at, row, after := StakeOf(w, c).value.leaf, Plan(w.db, call).value.change.row, Invoke(w.db, call).db;
               && Plan(w.db, call).value.change.at == at
               && Invoke(w.db, call).reply == Ok(FreshReply(w.db, call.op))
               && after == After(w.db, Plan(w.db, call).value)
               && after.receipts == w.db.receipts[at := row]
               && after != w.db
               && Sound(after)
               && RowsAged(w.db.receipts, after.receipts)
               && (forall key :: KeyUsed(after.events, key) <==> KeyUsed(w.db.events, key) || Uses(call, key))
  {
    hide GateOf, LedgerCall, Plan, Invoke, StakeOf, Backs, MayUse, Sound, LiensSound, RequestsSound, WindowSound,
         Claimed, PledgesSound, WithdrawalsSound, RowsAged, FreshReply, KeyUsed, WithRelease, Coupled;
    GuardsSuffice(w, a);
    var call := LedgerCall(w, a).value;
    UnusedKeyCommits(w.db, call);
    CallAgesRows(w.db, call);
    RewritesItsLeaf(w.db, call);
    assert Uses(call, call.key);
    assert Invoke(w.db, call).db != w.db;
  }

  // ----- Closing a row -----------------------------------------------------

  /** The row write of a closing action. */
  lemma FinishCloses(w: World, after: Db, a: Action, reply: Reply)
    requires GateOf(w, a).Proceed? && ClaimOf(a).Some? && !KeepsLeaf(a) && Priced(a)
    requires StakeOf(w, ClaimOf(a).value).Some? && after != w.db
    ensures Finish(w, after, a, reply).Some?
    ensures var v := Finish(w, after, a, reply).value;
            v.db == after && v.now == w.now && v.requests == w.requests && StakeOf(v, ClaimOf(a).value).None?
  {
    hide CheckLines, TreeMass, AvailableForWithdrawal;
  }

  predicate PledgeOrLien(a: Action) {
    a.CancelPledge? || a.AcceptPledge? || a.RejectPledge? || a.ExpirePledge? || a.ForceReleaseLien?
  }

  lemma PledgesTouchesOneClaim(w: World, after: Db, a: Action, reply: Reply, c: Claim)
    requires GateOf(w, a).Proceed? && ClaimOf(a).Some? && PledgeOrLien(a)
    requires !a.AcceptPledge? && Finish(w, after, a, reply).Some? && c != ClaimOf(a).value
    ensures StakeOf(Finish(w, after, a, reply).value, c) == StakeOf(w, c)
  {
    hide CheckLines, TreeMass, AvailableForWithdrawal, Releasable;
  }

  lemma HoldingsTouchesOneClaim(w: World, after: Db, a: Action, reply: Reply, c: Claim)
    requires GateOf(w, a).Proceed? && ClaimOf(a).Some? && !PledgeOrLien(a)
    requires !a.AcceptPledge? && Finish(w, after, a, reply).Some? && c != ClaimOf(a).value
    ensures StakeOf(Finish(w, after, a, reply).value, c) == StakeOf(w, c)
  {
    hide CheckLines, TreeMass, AvailableForWithdrawal, Releasable;
  }

  lemma FinishTouchesOneClaim(w: World, after: Db, a: Action, reply: Reply, c: Claim)
    requires GateOf(w, a).Proceed? && ClaimOf(a).Some?
    requires !a.AcceptPledge? && Finish(w, after, a, reply).Some? && c != ClaimOf(a).value
    ensures StakeOf(Finish(w, after, a, reply).value, c) == StakeOf(w, c)
  {
    hide *;
    if PledgeOrLien(a) {
      PledgesTouchesOneClaim(w, after, a, reply, c);
    } else {
      HoldingsTouchesOneClaim(w, after, a, reply, c);
    }
  }

  lemma PledgesOpensNoKeys(w: World, after: Db, a: Action, reply: Reply, key: Key)
    requires GateOf(w, a).Proceed? && ClaimOf(a).Some? && PledgeOrLien(a)
    requires Finish(w, after, a, reply).Some?
    ensures MayUse(Finish(w, after, a, reply).value, key) ==> MayUse(w, key)
  {
    hide CheckLines, TreeMass, AvailableForWithdrawal, WithRelease, Releasable;
  }

  lemma HoldingsOpensNoKeys(w: World, after: Db, a: Action, reply: Reply, key: Key)
    requires GateOf(w, a).Proceed? && ClaimOf(a).Some? && !PledgeOrLien(a)
    requires Finish(w, after, a, reply).Some?
    ensures MayUse(Finish(w, after, a, reply).value, key) ==> MayUse(w, key)
  {
    hide CheckLines, TreeMass, AvailableForWithdrawal, WithRelease, Releasable;
  }

  lemma FinishOpensNoKeys(w: World, after: Db, a: Action, reply: Reply, key: Key)
    requires GateOf(w, a).Proceed? && ClaimOf(a).Some?
    requires Finish(w, after, a, reply).Some?
    ensures MayUse(Finish(w, after, a, reply).value, key) ==> MayUse(w, key)
  {
    hide *;
    if PledgeOrLien(a) {
      PledgesOpensNoKeys(w, after, a, reply, key);
    } else {
      HoldingsOpensNoKeys(w, after, a, reply, key);
    }
  }

  lemma FinishClosesKeys(w: World, after: Db, a: Action, reply: Reply, key: Key)
    requires GateOf(w, a).Proceed? && ClaimOf(a).Some? && LedgerCall(w, a).Some?
    requires Finish(w, after, a, reply).Some? && after != w.db
    ensures Uses(LedgerCall(w, a).value, key) ==> !MayUse(Finish(w, after, a, reply).value, key)
  {
    hide GateOf, LedgerCall, Finish, Uses, MayUse;
    if PledgeOrLien(a) {
      PledgesCloseKeys(w, after, a, reply, key);
    } else {
      OthersCloseKeys(w, after, a, reply, key);
    }
  }

  lemma PledgesCloseKeys(w: World, after: Db, a: Action, reply: Reply, key: Key)
    requires GateOf(w, a).Proceed? && ClaimOf(a).Some? && PledgeOrLien(a) && LedgerCall(w, a).Some?
    requires Finish(w, after, a, reply).Some?
    ensures Uses(LedgerCall(w, a).value, key) ==> !MayUse(Finish(w, after, a, reply).value, key)
  {
    hide CheckLines, TreeMass, AvailableForWithdrawal, Releasable;
  }

  lemma OthersCloseKeys(w: World, after: Db, a: Action, reply: Reply, key: Key)
    requires GateOf(w, a).Proceed? && ClaimOf(a).Some? && !PledgeOrLien(a) && LedgerCall(w, a).Some?
    requires Finish(w, after, a, reply).Some? && after != w.db
    ensures Uses(LedgerCall(w, a).value, key) ==> !MayUse(Finish(w, after, a, reply).value, key)
  {
    hide CheckLines, TreeMass, AvailableForWithdrawal, WithRelease, Releasable;
    if a.SettleTrade? {
      ReleasedTradeKey(a.id);
    }
  }

  lemma FinishSpendsKeys(w: World, after: Db, a: Action, reply: Reply)
    requires GateOf(w, a).Proceed? && ClaimOf(a).Some? && LedgerCall(w, a).Some?
    requires Finish(w, after, a, reply).Some? && after != w.db
    ensures var v := Finish(w, after, a, reply).value;
            forall key :: MayUse(v, key) ==> MayUse(w, key) && !Uses(LedgerCall(w, a).value, key)
  {
    hide *;
    var v := Finish(w, after, a, reply).value;
    forall key
      ensures MayUse(v, key) ==> MayUse(w, key) && !Uses(LedgerCall(w, a).value, key)
    {
      FinishOpensNoKeys(w, after, a, reply, key);
      FinishClosesKeys(w, after, a, reply, key);
    }
  }

  lemma FinishTables(w: World, after: Db, a: Action, reply: Reply)
    requires GateOf(w, a).Proceed? && ClaimOf(a).Some? && !a.AcceptPledge?
    requires Finish(w, after, a, reply).Some?
    ensures var v, id := Finish(w, after, a, reply).value, ClaimOf(a).value.id;
            && (if a.ForceReleaseLien?
                then v.liens == w.liens[id := w.liens[id].(status := ForceReleased, remaining := 0, forced := true)]
                else v.liens == w.liens)
            && (if ClaimOf(a).value.kind.PledgeClaim?
                then !v.pledges[id].status.Pending?
                  && v.pledges == w.pledges[id := w.pledges[id].(status := v.pledges[id].status)]
                else v.pledges == w.pledges)
  {
    hide CheckLines, TreeMass, AvailableForWithdrawal;
  }

  lemma FinishKeepsBooks(w: World, after: Db, a: Action, reply: Reply)
    requires GateOf(w, a).Proceed? && ClaimOf(a).Some? && !a.AcceptPledge?
    requires Finish(w, after, a, reply).Some?
    requires LiensSound(w.liens, w.requests) && PledgesSound(w.pledges, w.liens)
    ensures var v := Finish(w, after, a, reply).value;
            && LiensSound(v.liens, w.requests) && PledgesSound(v.pledges, v.liens)
            && (forall id :: id in w.liens ==> id in v.liens && v.liens[id].tenant == w.liens[id].tenant)
  {
    hide Finish, AskedOf, GateOf, LiensSound, PledgesSound;
    FinishTables(w, after, a, reply);
    ActsOnARow(w, a);
    var v := Finish(w, after, a, reply).value;
    if a.ForceReleaseLien? {
      ForcedStaysSound(w.liens, w.requests, a.id);
    }
    PledgesStaySound(w.pledges, v.pledges, w.liens, v.liens, ClaimOf(a).value.id);
  }

  lemma ForcedStaysSound(liens: map<nat, Lien>, requests: seq<Request>, id: nat)
    requires LiensSound(liens, requests) && id in liens
    ensures LiensSound(liens[id := liens[id].(status := ForceReleased, remaining := 0, forced := true)], requests)
  {
    hide AskedOf;
    assert LienSound(liens[id], requests, id);
  }

  lemma PledgesStaySound(pledges: map<nat, Pledge>, later: map<nat, Pledge>, liens: map<nat, Lien>,
                         after: map<nat, Lien>, id: nat)
    requires PledgesSound(pledges, liens) && after.Keys == liens.Keys
    requires later == pledges || (id in pledges && id in later && !later[id].status.Pending?
                                  && later == pledges[id := pledges[id].(status := later[id].status)])
    ensures PledgesSound(later, after)
  {
  }

  lemma ActsOnARow(w: World, a: Action)
    requires GateOf(w, a).Proceed? && ClaimOf(a).Some?
    ensures a.ForceReleaseLien? ==> a.id in w.liens
    ensures ClaimOf(a).value.kind.PledgeClaim? ==> ClaimOf(a).value.id in w.pledges
  {
    hide CheckLines, TreeMass, AvailableForWithdrawal;
  }

  /** A withdrawal that has left the window no longer reserves. */
  lemma WithdrawalMovesOn(receipts: seq<Receipt>, now: int, ws: seq<Withdrawal>, id: nat, wd: Withdrawal)
    requires WithdrawalsSound(receipts, now, ws) && WindowSound(receipts, now, ws) && id < |ws|
    requires WithdrawalSound(receipts, now, wd) && wd.quantity == ws[id].quantity && !wd.status.PendingPayment?
    ensures WithdrawalsSound(receipts, now, ws[id := wd]) && WindowSound(receipts, now, ws[id := wd])
  {
    hide Rank;
    var later := ws[id := wd];
    assert WithdrawalQuantities(later) == WithdrawalQuantities(ws);
    forall i | 0 <= i < |later|
      ensures WithdrawalSound(receipts, now, later[i])
    {
      assert i != id ==> WithdrawalSound(receipts, now, ws[i]);
    }
    forall x: nat | x < |receipts|
      ensures Sum(WithdrawalQuantities(later), ReservingIds(later, now, receipts[x].tenant, x)) <= receipts[x].quantity
    {
      var before, mine := ReservingIds(ws, now, receipts[x].tenant, x), ReservingIds(later, now, receipts[x].tenant, x);
      forall i: nat | i < |ws| && i in before
        ensures WithdrawalQuantities(ws)[i] >= 0
      {
        assert WithdrawalSound(receipts, now, ws[i]);
      }
      SumMonotone(WithdrawalQuantities(ws), mine, before);
    }
  }

  lemma FinishKeepsWithdrawals(w: World, after: Db, a: Action, reply: Reply)
    requires GateOf(w, a).Proceed? && ClaimOf(a).Some?
    requires Finish(w, after, a, reply).Some?
    requires WithdrawalsSound(after.receipts, w.now, w.withdrawals) && WindowSound(after.receipts, w.now, w.withdrawals)
    requires a.RejectWithdrawal? ==>
               w.withdrawals[a.id].receipt < |after.receipts|
                 && Rank(after.receipts[w.withdrawals[a.id].receipt].status) <= 1
    ensures var v := Finish(w, after, a, reply).value;
            WithdrawalsSound(after.receipts, w.now, v.withdrawals) && WindowSound(after.receipts, w.now, v.withdrawals)
  {
    hide CheckLines, TreeMass, AvailableForWithdrawal, WithdrawalsSound, WindowSound, Rank;
    var v := Finish(w, after, a, reply).value;
    if ClaimOf(a).value.kind.WithdrawalClaim? {
      WithdrawalIsSound(w, after, a.id);
      WithdrawalMovesOn(after.receipts, w.now, w.withdrawals, a.id, v.withdrawals[a.id]);
    }
  }

  lemma WithdrawalIsSound(w: World, after: Db, id: nat)
    requires WithdrawalsSound(after.receipts, w.now, w.withdrawals) && id < |w.withdrawals|
    ensures WithdrawalSound(after.receipts, w.now, w.withdrawals[id])
  {
  }

  lemma UnfoldPerform(w: World, a: Action)
    requires GateOf(w, a).Proceed? && !a.ApproveReleaseRequest? && LedgerCall(w, a).Some?
    ensures var o := Invoke(w.db, LedgerCall(w, a).value);
            o.reply.Ok? && Finish(w, o.db, a, o.reply.value).Some? ==>
              Perform(w, a) == Served(Finish(w, o.db, a, o.reply.value).value, Done)
  {
    hide GateOf, LedgerCall, Finish, Invoke;
  }

  lemma ClosingKeepsHealthy(w: World, a: Action)
    requires Healthy(w) && GateOf(w, a).Proceed? && ClaimOf(a).Some? && LedgerCall(w, a).Some?
    requires !KeepsLeaf(a) && Priced(a)
    ensures Perform(w, a).verdict.Done? && Healthy(Perform(w, a).world)
  {
    hide GateOf, LedgerCall, Plan, Invoke, Perform, Finish, StakeOf, MayUse, Uses, Sound, LiensSound, RequestsSound,
         WindowSound, KeysAhead, PledgesSound, WithdrawalsSound, RowsAged, FreshReply, KeyUsed, Coupled, Priced, After;
    LeafCallCommits(w, a);
    var call, c := LedgerCall(w, a).value, ClaimOf(a).value;
    var after, at, row := Invoke(w.db, call).db, StakeOf(w, c).value.leaf, Plan(w.db, call).value.change.row;
    var reply := FreshReply(w.db, call.op);
    RowAfterCall(w, a, row);
    RestingPartsSurvive(w, after, w.liens);
    FinishCloses(w, after, a, reply);
    var v := Finish(w, after, a, reply).value;
    UnfoldPerform(w, a);
    FinishSpendsKeys(w, after, a, reply);
    FinishKeepsBooks(w, after, a, reply);
    forall d | d != c
      ensures StakeOf(v, d) == StakeOf(w, d)
    {
      FinishTouchesOneClaim(w, after, a, reply, d);
    }
    if a.RejectWithdrawal? {
      RejectedPointsAtItsLeaf(w, a);
    }
    FinishKeepsWithdrawals(w, after, a, reply);
    CoupledAfterLettingGo(w, v, c, row);
    KeysAheadAfter(w, v, call);
    RequestsAge(after.receipts, after.receipts, w.liens, v.liens, w.requests) by {
      hide *;
      RowsStay(after.receipts);
    }
  }

  lemma RejectedPointsAtItsLeaf(w: World, a: Action)
    requires a.RejectWithdrawal? && StakeOf(w, ClaimOf(a).value).Some?
    ensures a.id < |w.withdrawals| && w.withdrawals[a.id].receipt == StakeOf(w, ClaimOf(a).value).value.leaf
  {
  }

  /** Rejecting a withdrawal that holds nothing is a row write alone. */
  lemma RejectingUnheldKeepsHealthy(w: World, a: Action)
    requires Healthy(w) && GateOf(w, a).Proceed? && ClaimOf(a).Some? && LedgerCall(w, a).None?
    ensures Perform(w, a).verdict.Done? && Healthy(Perform(w, a).world)
  {
    hide GateOf, LedgerCall, Perform, Finish, Sound, LiensSound, RequestsSound, WindowSound, KeysAhead,
         WithdrawalsSound, Coupled, MayUse, StakeOf, PledgesSound, Joined, WithdrawalsFit;
    UnheldIsOnlyRejected(w, a);
    CoupledIsJoined(w);
    HealthyWithdrawalsFit(w);
    UnheldIsLow(w, a.id);
    var v := SetWithdrawal(w, a.id, WithdrawalStatus.Rejected);
    WithdrawalIsSound(w, w.db, a.id);
    WithdrawalMovesOn(w.db.receipts, w.now, w.withdrawals, a.id, v.withdrawals[a.id]);
    RejectionTouchesNoClaim(w, a.id);
    CoupledAside(w, v);
    forall key
      ensures MayUse(v, key) ==> MayUse(w, key)
    {
      FinishOpensNoKeys(w, w.db, a, Reply.Node(0), key);
    }
    KeysAheadAside(w, v);
  }

  lemma UnheldIsOnlyRejected(w: World, a: Action)
    requires Healthy(w) && GateOf(w, a).Proceed? && ClaimOf(a).Some? && LedgerCall(w, a).None?
    ensures a.RejectWithdrawal? && a.id < |w.withdrawals| && w.withdrawals[a.id].receipt < |w.db.receipts|
    ensures w.db.receipts[w.withdrawals[a.id].receipt].status !in HELD && !w.withdrawals[a.id].status.Completed?
    ensures Finish(w, w.db, a, Reply.Node(0)) == Some(SetWithdrawal(w, a.id, WithdrawalStatus.Rejected))
    ensures Perform(w, a) == Served(SetWithdrawal(w, a.id, WithdrawalStatus.Rejected), Done)
  {
    hide CheckLines, TreeMass, AvailableForWithdrawal, Sound, LiensSound, RequestsSound, WindowSound, KeysAhead,
         Coupled, Releasable;
    if a.RejectWithdrawal? {
      assert WithdrawalSound(w.db.receipts, w.now, w.withdrawals[a.id]);
    }
  }

  lemma RejectionTouchesNoClaim(w: World, id: nat)
    requires id < |w.withdrawals| && StakeOf(w, Claim(WithdrawalClaim, id)).None?
    ensures OnlyChanged(w, SetWithdrawal(w, id, WithdrawalStatus.Rejected), {})
  {
  }

  lemma UnheldIsLow(w: World, id: nat)
    requires Joined(w) && WithdrawalsFit(w.db.receipts, w.withdrawals) && id < |w.withdrawals|
    requires w.withdrawals[id].receipt < |w.db.receipts| && w.db.receipts[w.withdrawals[id].receipt].status !in HELD
    requires !w.withdrawals[id].status.Completed?
    ensures StakeOf(w, Claim(WithdrawalClaim, id)).None? && Rank(w.db.receipts[w.withdrawals[id].receipt].status) <= 1
  {
    hide Claimed;
    assert WithdrawalFits(w.db.receipts, w.withdrawals[id]);
    var c := Claim(WithdrawalClaim, id);
    assert StakeOf(w, c).Some? ==> HeldFor(w.db.receipts, c, StakeOf(w, c).value);
  }

  // ----- Keeping the leaf --------------------------------------------------

  lemma ApprovedKeepsBacking(w: World, after: Db, a: Action, reply: Reply, row: Receipt)
    requires GateOf(w, a).Proceed? && (a.ApproveWithdrawal? || a.ApproveLoan?)
    requires StakeOf(w, ClaimOf(a).value).Some?
    requires HeldFor(w.db.receipts, ClaimOf(a).value, StakeOf(w, ClaimOf(a).value).value)
    requires var at := StakeOf(w, ClaimOf(a).value).value.leaf;
             row == w.db.receipts[at].(approval := APPROVED) && after.receipts == w.db.receipts[at := row]
    ensures Finish(w, after, a, reply).Some?
    ensures var v, c := Finish(w, after, a, reply).value, ClaimOf(a).value;
            && v.db == after && v.now == w.now && v.requests == w.requests && OnlyChanged(w, v, {c})
            && StakeOf(v, c) == Some(StakeOf(w, c).value.(unapproved := false))
            && HeldFor(after.receipts, c, StakeOf(v, c).value)
  {
    hide CheckLines, TreeMass, AvailableForWithdrawal;
  }

  lemma ApprovingKeepsHealthy(w: World, a: Action)
    requires Healthy(w) && GateOf(w, a).Proceed? && (a.ApproveWithdrawal? || a.ApproveLoan?)
    ensures Perform(w, a).verdict.Done? && Healthy(Perform(w, a).world)
  {
    hide GateOf, Plan, Invoke, Perform, Finish, StakeOf, MayUse, Uses, Sound, LiensSound, RequestsSound, WindowSound,
         KeysAhead, PledgesSound, WithdrawalsSound, RowsAged, FreshReply, KeyUsed, Coupled, After;
    LeafCallCommits(w, a);
    var call, c := LedgerCall(w, a).value, ClaimOf(a).value;
    hide LedgerCall;
    var after, at, row := Invoke(w.db, call).db, StakeOf(w, c).value.leaf, Plan(w.db, call).value.change.row;
    var reply := FreshReply(w.db, call.op);
    RowAfterCall(w, a, row);
    RestingPartsSurvive(w, after, w.liens);
    ApprovedKeepsBacking(w, after, a, reply, row);
    assert Backs(after.receipts, c, StakeOf(Finish(w, after, a, reply).value, c).value);
    var v := Finish(w, after, a, reply).value;
    UnfoldPerform(w, a);
    FinishSpendsKeys(w, after, a, reply);
    FinishKeepsBooks(w, after, a, reply);
    FinishKeepsWithdrawals(w, after, a, reply);
    CoupledAfterRewriting(w, v, c, c, row);
    KeysAheadAfter(w, v, call);
    RequestsAge(after.receipts, after.receipts, w.liens, v.liens, w.requests) by {
      hide *;
      RowsStay(after.receipts);
    }
  }

  lemma AcceptedBecomesLien(w: World, after: Db, a: Action, reply: Reply, row: Receipt)
    requires GateOf(w, a).Proceed? && a.AcceptPledge? && a.id !in w.liens
    requires StakeOf(w, ClaimOf(a).value).Some?
    requires HeldFor(w.db.receipts, ClaimOf(a).value, StakeOf(w, ClaimOf(a).value).value)
    requires var at := StakeOf(w, ClaimOf(a).value).value.leaf;
             row == w.db.receipts[at].(status := HELD_LIEN) && after.receipts == w.db.receipts[at := row]
    ensures Finish(w, after, a, reply).Some?
    ensures var v, c, d := Finish(w, after, a, reply).value, ClaimOf(a).value, Claim(LienClaim, a.id);
            && v.db == after && v.now == w.now && v.requests == w.requests && v.withdrawals == w.withdrawals
            && OnlyChanged(w, v, {c, d}) && StakeOf(v, c).None? && StakeOf(w, d).None?
            && StakeOf(v, d) == StakeOf(w, c)
            && HeldFor(after.receipts, d, StakeOf(v, d).value)
            && v.liens == w.liens[a.id := v.liens[a.id]] && Live(v.liens[a.id]) && !v.liens[a.id].forced
            && v.liens[a.id].quantity == v.liens[a.id].remaining == w.pledges[a.id].quantity
            && v.liens[a.id].tenant == w.pledges[a.id].tenant && v.liens[a.id].client == w.pledges[a.id].client
            && v.pledges == w.pledges[a.id := w.pledges[a.id].(status := PledgeStatus.Accepted)]
  {
    hide CheckLines, TreeMass, AvailableForWithdrawal;
  }

  lemma {:induction false} NobodyAskedYet(receipts: seq<Receipt>, liens: map<nat, Lien>, requests: seq<Request>,
                                          status: RequestStatus, id: nat)
    requires RequestsSound(receipts, liens, requests) && id !in liens
    ensures AskedOf(requests, status, id) == 0
  {
    if requests != [] {
      var n := |requests| - 1;
      NobodyAskedYet(receipts, liens, requests[..n], status, id);
      assert RequestSound(receipts, liens, requests[n]);
      LineSumAbsent(requests[n].lines, id);
    }
  }

  lemma AcceptedBooks(w: World, v: World, id: nat)
    requires LiensSound(w.liens, w.requests) && PledgesSound(w.pledges, w.liens)
    requires RequestsSound(w.db.receipts, w.liens, w.requests)
    requires id in w.pledges && id !in w.liens && v.requests == w.requests && id in v.liens
    requires v.liens == w.liens[id := v.liens[id]] && Live(v.liens[id]) && !v.liens[id].forced
    requires v.liens[id].quantity == v.liens[id].remaining == w.pledges[id].quantity
    requires v.liens[id].tenant == w.pledges[id].tenant && v.liens[id].client == w.pledges[id].client
    requires v.pledges == w.pledges[id := w.pledges[id].(status := PledgeStatus.Accepted)]
    ensures LiensSound(v.liens, v.requests) && PledgesSound(v.pledges, v.liens)
  {
    hide AskedOf, RequestsSound;
    NobodyAskedYet(w.db.receipts, w.liens, w.requests, RequestStatus.Pending, id);
    NobodyAskedYet(w.db.receipts, w.liens, w.requests, RequestStatus.Approved, id);
    forall l | l in v.liens
      ensures LienSound(v.liens[l], v.requests, l)
    {
      assert l != id ==> LienSound(w.liens[l], w.requests, l);
    }
  }

  lemma AcceptingKeepsHealthy(w: World, a: Action)
    requires Healthy(w) && GateOf(w, a).Proceed? && a.AcceptPledge?
    ensures Perform(w, a).verdict.Done? && Healthy(Perform(w, a).world)
  {
    hide Plan, Invoke, Perform, Finish, StakeOf, MayUse, Uses, Sound, LiensSound, RequestsSound, WindowSound,
         KeysAhead, WithdrawalsSound, RowsAged, FreshReply, KeyUsed, Coupled, After;
    assert a.id !in w.liens && a.id in w.pledges;
    LeafCallCommits(w, a);
    var call, c, d := LedgerCall(w, a).value, ClaimOf(a).value, Claim(LienClaim, a.id);
    hide LedgerCall, GateOf, PledgesSound;
    var after, at, row := Invoke(w.db, call).db, StakeOf(w, c).value.leaf, Plan(w.db, call).value.change.row;
    var reply := FreshReply(w.db, call.op);
    RowAfterCall(w, a, row);
    AcceptedBecomesLien(w, after, a, reply, row);
    assert Backs(after.receipts, d, StakeOf(Finish(w, after, a, reply).value, d).value);
    var v := Finish(w, after, a, reply).value;
    RestingPartsSurvive(w, after, v.liens);
    UnfoldPerform(w, a);
    FinishSpendsKeys(w, after, a, reply);
    AcceptedBooks(w, v, a.id);
    CoupledAfterRewriting(w, v, c, d, row);
    KeysAheadAfter(w, v, call);
  }

  /** Every action on an open row keeps the invariant and, once past its own check,
      succeeds. */
  lemma RowActionKeepsHealthy(w: World, a: Action)
    requires Healthy(w) && GateOf(w, a).Proceed? && ClaimOf(a).Some? && Priced(a)
    ensures Perform(w, a).verdict.Done? && Healthy(Perform(w, a).world)
  {
    hide Healthy, Perform, GateOf, LedgerCall;
    if LedgerCall(w, a).None? {
      RejectingUnheldKeepsHealthy(w, a);
    } else if a.AcceptPledge? {
      AcceptingKeepsHealthy(w, a);
    } else if KeepsLeaf(a) {
      ApprovingKeepsHealthy(w, a);
    } else {
      ClosingKeepsHealthy(w, a);
    }
  }
}
