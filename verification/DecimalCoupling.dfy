/** The services over rounding columns, with any quantities: rows and held leaves still
    belong together one to one, and no key ahead of an open row is used. Only what leaves
    weigh is another matter. */
module DecimalCoupling {
  import opened InventoryTypes
  import opened Ledger
  import opened LedgerInvariant
  import opened Conservation
  import ExactlyOnce
  import opened Tables
  import opened Services
  import opened Coupling
  import opened Stability
  import opened Guards
  import opened Closing
  import opened Opening
  import opened Aside
  import opened Decimals
  import opened DecimalServices

  // ----- One ledger call ---------------------------------------------------

  lemma StoredCallAgesRows(db: Db, call: Call, g: int)
    requires g > 0 && Framed(db)
    ensures RowsAged(db.receipts, StoredInvoke(db, call, g).db.receipts)
  {
    hide Plan, Lineage, StatusRules, Sourced, LawfulNumbers, LawfulEvents, Collides, Commits, StoredInvoke, Stored,
         LawfulKid;
    StoredCallWrites(db, call, g);
    if Commits(db, call, g) {
      CommittedIsAdmitted(db, call, g);
      PlanIsLawful(db, call);
      LawfulChangeAges(db, Plan(db, call).value.change, g);
    } else {
      RowsStay(db.receipts);
    }
  }

  lemma LawfulChangeAges(db: Db, change: Change, g: int)
    requires g > 0 && LawfulChange(db, change)
    ensures RowsAged(db.receipts, Changed(db.receipts, StoredChange(change, g)))
  {
    hide Stored, LawfulKid, RowRules;
  }

  /** A planned call under unused keys commits, and spends exactly its keys. */
  lemma StoredUnusedKeyCommits(db: Db, call: Call, g: int)
    requires g > 0 && Framed(db) && Plan(db, call).Ok? && !call.op.Deposit?
    requires forall key :: Uses(call, key) ==> !KeyUsed(db.events, key)
    ensures var after := StoredInvoke(db, call, g).db;
            && StoredInvoke(db, call, g).reply == Ok(FreshReply(db, call.op))
            && after.receipts == Changed(db.receipts, StoredChange(Plan(db, call).value.change, g))
            && after.events == db.events + StoredEvents(Plan(db, call).value.events, g)
            && Framed(after) && RowsAged(db.receipts, after.receipts)
            && (forall key :: KeyUsed(after.events, key) <==> KeyUsed(db.events, key) || Uses(call, key))
  {
    hide Plan, Framed, StoredInvoke, FreshReply, KeyUsed, WithRelease, RowsAged, Uses, StoredChange;
    StoredCallCommits(db, call, g);
    StoredCallKeepsFramed(db, call, g);
    StoredCallAgesRows(db, call, g);
    var events := Plan(db, call).value.events;
    forall key
      ensures KeyUsed(db.events + StoredEvents(events, g), key) <==> KeyUsed(db.events, key) || Uses(call, key)
    {
      PlanUses(db, call, key);
      KeyUsedAppend(db.events, StoredEvents(events, g), key);
    }
  }

  /** The ledger call of an action on an open row rewrites its leaf. */
  lemma StoredLeafCallCommits(w: World, a: Action, g: int)
    requires g > 0 && Attached(w) && GateOf(w, a).Proceed? && ClaimOf(a).Some? && LedgerCall(w, a).Some?
    ensures var call, c := LedgerCall(w, a).value, ClaimOf(a).value;
            && ForItsLeaf(w, c, call) && HeldFor(w.db.receipts, c, StakeOf(w, c).value)
            && Plan(w.db, call).Ok? && Plan(w.db, call).value.change.Rewrite?
            && var at, row := StakeOf(w, c).value.leaf, Plan(w.db, call).value.change.row;
               var after := StoredInvoke(w.db, call, g).db;
               && Plan(w.db, call).value.change == Rewrite(at, row)
               && StoredInvoke(w.db, call, g).reply == Ok(FreshReply(w.db, call.op))
               && after.receipts == w.db.receipts[at := row]
               && after.events == w.db.events + StoredEvents(Plan(w.db, call).value.events, g)
               && after != w.db
               && Framed(after) && RowsAged(w.db.receipts, after.receipts)
               && (forall key :: KeyUsed(after.events, key) <==> KeyUsed(w.db.events, key) || Uses(call, key))
               && (forall key :: Uses(call, key) ==> MayUse(w, key) && !MayRepeat(w, key))
  {
    hide GateOf, LedgerCall, Plan, StoredInvoke, StakeOf, HeldFor, MayUse, MayRepeat, Framed, LiensFit, RequestsSound,
         Claimed, PledgesSound, WithdrawalsFit, LineEventsFit, RowsAged, FreshReply, KeyUsed, WithRelease, Joined,
         StoredEvents;
    GuardsFindTheLeaf(w, a);
    var call := LedgerCall(w, a).value;
    StoredUnusedKeyCommits(w.db, call, g);
    RewritesItsLeaf(w.db, call);
    assert Uses(call, call.key);
    assert StoredInvoke(w.db, call, g).db != w.db;
  }

  lemma StoredUnfoldPerform(w: World, a: Action, g: int)
    requires g > 0 && GateOf(w, a).Proceed? && !a.ApproveReleaseRequest? && LedgerCall(w, a).Some?
    ensures var o := StoredInvoke(w.db, LedgerCall(w, a).value, g);
            if o.reply.Err? then StoredPerform(w, a, g) == Served(w.(db := o.db), Refused(LedgerRefused(o.reply.error)))
            else if Finish(w, o.db, a, o.reply.value).Some?
            then StoredPerform(w, a, g) == Served(Finish(w, o.db, a, o.reply.value).value, Done)
            else StoredPerform(w, a, g) == Served(w.(db := o.db), Refused(Conflict))
  {
    hide GateOf, LedgerCall, Finish, StoredInvoke;
  }

  // ----- Keys of pending lines ---------------------------------------------

  /** Aged rows, new rows minted by new events, and lines that stay pending or not: what was
      said of the keys of pending lines still holds. */
  lemma LineEventsFitWith(w: World, v: World)
    requires LineEventsFit(w) && RowsAged(w.db.receipts, v.db.receipts)
    requires |w.db.events| <= |v.db.events|
    requires forall e {:trigger v.db.events[e]} :: 0 <= e < |w.db.events| ==> v.db.events[e].key == w.db.events[e].key
    requires forall e: nat, kind, id: nat, k: nat {:trigger LineEventFits(v, e, kind, id, k)} ::
               |w.db.events| <= e < |v.db.events| ==> LineEventFits(v, e, kind, id, k)
    requires forall i: nat {:trigger v.db.receipts[i]} :: |w.db.receipts| <= i < |v.db.receipts| ==>
               v.db.receipts[i].sourceEvent.Some? && v.db.receipts[i].sourceEvent.value >= |w.db.events|
    requires forall id: nat :: id < |v.requests| && v.requests[id].status.Pending? && id < |w.requests| ==>
               w.requests[id].status.Pending? && v.requests[id].lines == w.requests[id].lines
    requires forall id: nat :: |w.requests| <= id < |v.requests| ==> NoEventsOf(w, id)
    requires forall l :: l in w.liens && !Live(w.liens[l]) ==> l in v.liens && !Live(v.liens[l])
    ensures LineEventsFit(v)
  {
    hide Rank;
    forall e: nat, kind, id: nat, k: nat | e < |v.db.events|
      ensures LineEventFits(v, e, kind, id, k)
    {
      if e < |w.db.events| && id < |w.requests| {
        assert LineEventFits(w, e, kind, id, k);
        forall i: nat | i < |v.db.receipts| && v.db.receipts[i].sourceEvent == Some(e)
          ensures i < |w.db.receipts| && Ages(w.db.receipts[i], v.db.receipts[i])
        {
        }
      } else if e < |w.db.events| && id < |v.requests| {
        assert NoEventsOf(w, id);
      }
    }
  }

  /** In particular if the new events are not of pending lines. */
  lemma LineEventsFitAfter(w: World, v: World)
    requires LineEventsFit(w) && RowsAged(w.db.receipts, v.db.receipts)
    requires |w.db.events| <= |v.db.events|
    requires forall e {:trigger v.db.events[e]} :: 0 <= e < |w.db.events| ==> v.db.events[e].key == w.db.events[e].key
    requires forall e, kind, id: nat, k: nat ::
               |w.db.events| <= e < |v.db.events| && v.db.events[e].key == LineKey(kind, id, k)
               ==> id >= |v.requests| || !v.requests[id].status.Pending?
    requires forall i: nat {:trigger v.db.receipts[i]} :: |w.db.receipts| <= i < |v.db.receipts| ==>
               v.db.receipts[i].sourceEvent.Some? && v.db.receipts[i].sourceEvent.value >= |w.db.events|
    requires forall id: nat :: id < |v.requests| && v.requests[id].status.Pending? && id < |w.requests| ==>
               w.requests[id].status.Pending? && v.requests[id].lines == w.requests[id].lines
    requires forall id: nat :: |w.requests| <= id < |v.requests| ==> NoEventsOf(w, id)
    requires forall l :: l in w.liens && !Live(w.liens[l]) ==> l in v.liens && !Live(v.liens[l])
    ensures LineEventsFit(v)
  {
    hide RowsAged, LineEventsFit, Rank;
    LineEventsFitWith(w, v);
  }

  /** No event is on file under a key of request `id`. */
  ghost predicate NoEventsOf(w: World, id: nat) {
    forall e: nat, kind, k: nat :: e < |w.db.events| ==> w.db.events[e].key != LineKey(kind, id, k)
  }

  lemma FutureRequestsHaveNoEvents(w: World, id: nat)
    requires KeysFree(w) && id >= |w.requests|
    ensures NoEventsOf(w, id)
  {
    forall e: nat, kind, k: nat | e < |w.db.events|
      ensures w.db.events[e].key != LineKey(kind, id, k)
    {
      var key := LineKey(kind, id, k);
      assert MayUse(w, key) && !MayRepeat(w, key);
      assert KeyUsed(w.db.events, w.db.events[e].key);
    }
  }

  // ----- Actions on an open row --------------------------------------------

  lemma FinishKeepsFit(w: World, after: Db, a: Action, reply: Reply)
    requires GateOf(w, a).Proceed? && ClaimOf(a).Some? && !a.AcceptPledge?
    requires Finish(w, after, a, reply).Some?
    requires LiensFit(w.liens) && PledgesSound(w.pledges, w.liens)
    ensures var v := Finish(w, after, a, reply).value;
            && LiensFit(v.liens) && PledgesSound(v.pledges, v.liens)
            && (forall id :: id in w.liens ==> id in v.liens && v.liens[id].tenant == w.liens[id].tenant)
            && (forall id :: id in w.liens && !Live(w.liens[id]) ==> id in v.liens && !Live(v.liens[id]))
  {
    hide Finish, GateOf, LiensFit, PledgesSound;
    FinishTables(w, after, a, reply);
    ActsOnARow(w, a);
    var v := Finish(w, after, a, reply).value;
    if a.ForceReleaseLien? {
      ForcedStaysFit(w.liens, a.id);
    }
    PledgesStaySound(w.pledges, v.pledges, w.liens, v.liens, ClaimOf(a).value.id);
  }

  lemma ForcedStaysFit(liens: map<nat, Lien>, id: nat)
    requires LiensFit(liens) && id in liens
    ensures LiensFit(liens[id := liens[id].(status := ForceReleased, remaining := 0, forced := true)])
  {
    assert LienFits(liens[id]);
  }

  lemma FinishKeepsWithdrawalsFit(w: World, after: Db, a: Action, reply: Reply)
    requires GateOf(w, a).Proceed? && ClaimOf(a).Some?
    requires Finish(w, after, a, reply).Some?
    requires WithdrawalsFit(after.receipts, w.withdrawals)
    requires a.RejectWithdrawal? ==>
               w.withdrawals[a.id].receipt < |after.receipts|
               && Rank(after.receipts[w.withdrawals[a.id].receipt].status) <= 1
    ensures WithdrawalsFit(after.receipts, Finish(w, after, a, reply).value.withdrawals)
  {
    hide CheckLines, TreeMass, AvailableForWithdrawal, Rank, Releasable;
    var v := Finish(w, after, a, reply).value;
    forall i | 0 <= i < |v.withdrawals|
      ensures WithdrawalFits(after.receipts, v.withdrawals[i])
    {
      assert WithdrawalFits(after.receipts, w.withdrawals[i]);
    }
  }

  /** Everything a row action's end leaves attached, but for the claims. */
  lemma RestStaysAttached(w: World, v: World, call: Call, g: int)
    requires g > 0 && Attached(w)
    requires Framed(v.db) && RowsAged(w.db.receipts, v.db.receipts) && |v.db.receipts| == |w.db.receipts|
    requires !call.op.Deposit? && Plan(w.db, call).Ok?
    requires v.db.events == w.db.events + StoredEvents(Plan(w.db, call).value.events, g)
    requires forall key :: KeyUsed(v.db.events, key) <==> KeyUsed(w.db.events, key) || Uses(call, key)
    requires forall key :: Uses(call, key) ==> MayUse(w, key) && !MayRepeat(w, key)
    requires v.requests == w.requests
    requires forall key :: MayUse(v, key) ==> MayUse(w, key) && !Uses(call, key)
    requires forall l :: l in w.liens ==> l in v.liens && v.liens[l].tenant == w.liens[l].tenant
    requires forall l :: l in w.liens && !Live(w.liens[l]) ==> l in v.liens && !Live(v.liens[l])
    ensures KeysFree(v) && LineEventsFit(v) && RequestsSound(v.db.receipts, v.liens, v.requests)
  {
    hide Framed, Joined, LiensFit, PledgesSound, WithdrawalsFit, MayUse, Plan, Uses, RowsAged, LineEventsFit, KeysFree,
         RequestsSound, KeyUsed;
    assert forall key :: MayRepeat(v, key) <==> MayRepeat(w, key);
    KeysFreeAfter(w, v, call);
    NewEventsUse(w.db, v.db, call, g);
    forall e, kind, id: nat, k: nat | |w.db.events| <= e < |v.db.events| && v.db.events[e].key == LineKey(kind, id, k)
      ensures id >= |v.requests|
    {
      assert Uses(call, v.db.events[e].key);
    }
    LineEventsFitAfter(w, v);
    RequestsAge(w.db.receipts, v.db.receipts, w.liens, v.liens, w.requests);
  }

  lemma NewEventsUse(before: Db, after: Db, call: Call, g: int)
    requires g > 0 && Plan(before, call).Ok?
    requires after.events == before.events + StoredEvents(Plan(before, call).value.events, g)
    ensures forall e {:trigger after.events[e]} :: |before.events| <= e < |after.events| ==>
               Uses(call, after.events[e].key)
  {
    hide Plan, Uses;
    var events := Plan(before, call).value.events;
    forall e | |before.events| <= e < |after.events|
      ensures Uses(call, after.events[e].key)
    {
      assert after.events[e].key == events[e - |before.events|].key;
      PlanUses(before, call, after.events[e].key);
    }
  }

  lemma StoredClosingKeepsAttached(w: World, a: Action, g: int)
    requires g > 0 && Attached(w) && GateOf(w, a).Proceed? && ClaimOf(a).Some? && LedgerCall(w, a).Some?
    requires !KeepsLeaf(a) && Priced(a)
    ensures StoredPerform(w, a, g).verdict.Done? && Attached(StoredPerform(w, a, g).world)
    ensures var v, c := StoredPerform(w, a, g).world, ClaimOf(a).value;
            OnlyChanged(w, v, {c}) && StakeOf(v, c).None? && RowsAged(w.db.receipts, v.db.receipts)
  {
    hide GateOf, LedgerCall, Plan, StoredInvoke, StoredPerform, Finish, StakeOf, MayUse, MayRepeat, Uses, Framed,
         LiensFit, RequestsSound, KeysFree, PledgesSound, WithdrawalsFit, LineEventsFit, RowsAged, FreshReply, KeyUsed,
         Joined, Priced, StoredEvents;
    StoredLeafCallCommits(w, a, g);
    var call, c := LedgerCall(w, a).value, ClaimOf(a).value;
    var after, at, row := StoredInvoke(w.db, call, g).db, StakeOf(w, c).value.leaf, Plan(w.db, call).value.change.row;
    var reply := FreshReply(w.db, call.op);
    RowAfterCall(w, a, row);
    FinishCloses(w, after, a, reply);
    var v := Finish(w, after, a, reply).value;
    NotAnApproval(a);
    StoredUnfoldPerform(w, a, g);
    FinishSpendsKeys(w, after, a, reply);
    FinishKeepsFit(w, after, a, reply);
    forall d | d != c
      ensures StakeOf(v, d) == StakeOf(w, d)
    {
      FinishTouchesOneClaim(w, after, a, reply, d);
    }
    if a.RejectWithdrawal? {
      RejectedPointsAtItsLeaf(w, a);
    }
    WithdrawalsFitLater(w.db.receipts, after.receipts, w.withdrawals);
    FinishKeepsWithdrawalsFit(w, after, a, reply);
    JoinedAfterLettingGo(w, v, c, row);
    RestStaysAttached(w, v, call, g);
  }

  lemma NotAnApproval(a: Action)
    requires ClaimOf(a).Some? || Opens(a)
    ensures !a.ApproveReleaseRequest?
  {
  }

  lemma StoredApprovingKeepsAttached(w: World, a: Action, g: int)
    requires g > 0 && Attached(w) && GateOf(w, a).Proceed? && (a.ApproveWithdrawal? || a.ApproveLoan?)
    ensures StoredPerform(w, a, g).verdict.Done? && Attached(StoredPerform(w, a, g).world)
    ensures var v, c := StoredPerform(w, a, g).world, ClaimOf(a).value;
            && OnlyChanged(w, v, {c}) && StakeOf(w, c).Some? && RowsAged(w.db.receipts, v.db.receipts)
            && StakeOf(v, c) == Some(StakeOf(w, c).value.(unapproved := false))
  {
    hide GateOf, LedgerCall, Plan, StoredInvoke, StoredPerform, Finish, StakeOf, MayUse, MayRepeat, Uses, Framed,
         LiensFit, RequestsSound, KeysFree, PledgesSound, WithdrawalsFit, LineEventsFit, RowsAged, FreshReply, KeyUsed,
         Joined, StoredEvents;
    ApprovalHasACall(w, a);
    StoredLeafCallCommits(w, a, g);
    var call, c := LedgerCall(w, a).value, ClaimOf(a).value;
    var after, row := StoredInvoke(w.db, call, g).db, Plan(w.db, call).value.change.row;
    var reply := FreshReply(w.db, call.op);
    RowAfterCall(w, a, row);
    ApprovedKeepsBacking(w, after, a, reply, row);
    var v := Finish(w, after, a, reply).value;
    NotAnApproval(a);
    StoredUnfoldPerform(w, a, g);
    FinishSpendsKeys(w, after, a, reply);
    FinishKeepsFit(w, after, a, reply);
    WithdrawalsFitLater(w.db.receipts, after.receipts, w.withdrawals);
    FinishKeepsWithdrawalsFit(w, after, a, reply);
    JoinedAfterRewriting(w, v, c, c, row);
    RestStaysAttached(w, v, call, g);
  }

  lemma ApprovalHasACall(w: World, a: Action)
    requires GateOf(w, a).Proceed? && (a.ApproveWithdrawal? || a.ApproveLoan? || a.AcceptPledge?)
    ensures LedgerCall(w, a).Some? && ClaimOf(a).Some?
    ensures a.AcceptPledge? ==> a.id in w.pledges && w.pledges[a.id].status.Pending?
  {
    hide CheckLines, TreeMass, AvailableForWithdrawal, Releasable;
  }

  lemma AcceptedFits(w: World, v: World, id: nat)
    requires LiensFit(w.liens) && PledgesSound(w.pledges, w.liens) && id in w.pledges && id !in w.liens && id in v.liens
    requires v.liens == w.liens[id := v.liens[id]] && Live(v.liens[id]) && !v.liens[id].forced
    requires v.liens[id].quantity == v.liens[id].remaining == w.pledges[id].quantity
    requires v.liens[id].tenant == w.pledges[id].tenant && v.liens[id].client == w.pledges[id].client
    requires v.pledges == w.pledges[id := w.pledges[id].(status := PledgeStatus.Accepted)]
    ensures LiensFit(v.liens) && PledgesSound(v.pledges, v.liens)
  {
    forall l | l in v.liens
      ensures LienFits(v.liens[l])
    {
      assert l != id ==> LienFits(w.liens[l]);
    }
  }

  lemma PendingHasNoLien(w: World, id: nat)
    requires PledgesSound(w.pledges, w.liens) && id in w.pledges && w.pledges[id].status.Pending?
    ensures id !in w.liens
  {
  }

  lemma StoredAcceptingKeepsAttached(w: World, a: Action, g: int)
    requires g > 0 && Attached(w) && GateOf(w, a).Proceed? && a.AcceptPledge?
    ensures StoredPerform(w, a, g).verdict.Done? && Attached(StoredPerform(w, a, g).world)
    ensures var v, c, d := StoredPerform(w, a, g).world, ClaimOf(a).value, Claim(LienClaim, a.id);
            && OnlyChanged(w, v, {c, d}) && StakeOf(w, c).Some? && RowsAged(w.db.receipts, v.db.receipts)
            && StakeOf(v, c).None? && StakeOf(v, d) == StakeOf(w, c) && StakeOf(w, d).None?
  {
    hide GateOf, LedgerCall, Plan, StoredInvoke, StoredPerform, Finish, StakeOf, MayUse, MayRepeat, Uses, Framed,
         LiensFit, RequestsSound, KeysFree, PledgesSound, WithdrawalsFit, LineEventsFit, RowsAged, FreshReply, KeyUsed,
         Joined, StoredEvents;
    ApprovalHasACall(w, a);
    PendingHasNoLien(w, a.id);
    StoredLeafCallCommits(w, a, g);
    var call, c, d := LedgerCall(w, a).value, ClaimOf(a).value, Claim(LienClaim, a.id);
    var after, row := StoredInvoke(w.db, call, g).db, Plan(w.db, call).value.change.row;
    var reply := FreshReply(w.db, call.op);
    RowAfterCall(w, a, row);
    AcceptedBecomesLien(w, after, a, reply, row);
    var v := Finish(w, after, a, reply).value;
    NotAnApproval(a);
    StoredUnfoldPerform(w, a, g);
    FinishSpendsKeys(w, after, a, reply);
    AcceptedFits(w, v, a.id);
    WithdrawalsFitLater(w.db.receipts, after.receipts, w.withdrawals);
    JoinedAfterRewriting(w, v, c, d, row);
    RestStaysAttached(w, v, call, g);
  }

  /** Row writes alone. */
  lemma RowWriteKeepsAttached(w: World, v: World)
    requires Attached(w) && v.db == w.db && OnlyChanged(w, v, {}) && v.pledges == w.pledges && v.liens == w.liens
    requires forall key :: MayUse(v, key) ==> MayUse(w, key)
    requires forall key :: MayRepeat(v, key) <== MayRepeat(w, key)
    requires |w.requests| <= |v.requests|
    requires forall id: nat :: id < |v.requests| && v.requests[id].status.Pending? && id < |w.requests| ==>
               w.requests[id].status.Pending? && v.requests[id].lines == w.requests[id].lines
    requires RequestsSound(v.db.receipts, v.liens, v.requests) && WithdrawalsFit(v.db.receipts, v.withdrawals)
    ensures Attached(v)
  {
    hide Framed, StakeOf, MayUse, LiensFit, PledgesSound, WithdrawalsFit, RequestsSound, LineEventsFit, HeldFor,
         KeyUsed;
    JoinedAside(w, v);
    KeysFreeAside(w, v);
    RowsStay(w.db.receipts);
    forall id: nat | |w.requests| <= id < |v.requests|
      ensures NoEventsOf(w, id)
    {
      FutureRequestsHaveNoEvents(w, id);
    }
    hide Joined, KeysFree, NoEventsOf, RowsAged;
    LineEventsFitAfter(w, v);
  }

  lemma RejectsAlone(w: World, a: Action, g: int)
    requires g > 0 && GateOf(w, a).Proceed? && ClaimOf(a).Some? && LedgerCall(w, a).None? && LiensFit(w.liens)
    requires PledgesSound(w.pledges, w.liens) && WithdrawalsFit(w.db.receipts, w.withdrawals)
    ensures a.RejectWithdrawal? && a.id < |w.withdrawals| && w.withdrawals[a.id].receipt < |w.db.receipts|
    ensures w.db.receipts[w.withdrawals[a.id].receipt].status !in HELD && !w.withdrawals[a.id].status.Completed?
    ensures Finish(w, w.db, a, Reply.Node(0)) == Some(SetWithdrawal(w, a.id, WithdrawalStatus.Rejected))
    ensures StoredPerform(w, a, g) == Served(SetWithdrawal(w, a.id, WithdrawalStatus.Rejected), Done)
  {
    hide CheckLines, TreeMass, AvailableForWithdrawal, Releasable, LiensFit;
    if a.RejectWithdrawal? {
      assert WithdrawalFits(w.db.receipts, w.withdrawals[a.id]);
    }
  }

  lemma StoredRejectingUnheldKeepsAttached(w: World, a: Action, g: int)
    requires g > 0 && Attached(w) && GateOf(w, a).Proceed? && ClaimOf(a).Some? && LedgerCall(w, a).None?
    ensures StoredPerform(w, a, g).verdict.Done? && Attached(StoredPerform(w, a, g).world)
    ensures StoredPerform(w, a, g).world.db == w.db && OnlyChanged(w, StoredPerform(w, a, g).world, {})
  {
    hide GateOf, LedgerCall, StoredPerform, Finish, MayUse, MayRepeat, Framed, LiensFit, RequestsSound, KeysFree,
         PledgesSound, WithdrawalsFit, LineEventsFit, Joined, StakeOf;
    RejectsAlone(w, a, g);
    UnheldIsLow(w, a.id);
    var v := SetWithdrawal(w, a.id, WithdrawalStatus.Rejected);
    forall key
      ensures MayUse(v, key) ==> MayUse(w, key)
      ensures MayRepeat(v, key) <==> MayRepeat(w, key)
    {
      FinishOpensNoKeys(w, w.db, a, Reply.Node(0), key);
      assert MayRepeat(v, key) <==> MayRepeat(w, key) by { SameRequestsRepeat(w, v, key); }
    }
    RejectedWithdrawalFits(w, a.id);
    RejectionTouchesNoClaim(w, a.id);
    RowWriteKeepsAttached(w, v);
  }

  lemma SameRequestsRepeat(w: World, v: World, key: Key)
    requires |v.requests| == |w.requests|
    ensures MayRepeat(v, key) <==> MayRepeat(w, key)
  {
  }

  lemma RejectedWithdrawalFits(w: World, id: nat)
    requires WithdrawalsFit(w.db.receipts, w.withdrawals) && id < |w.withdrawals|
    requires w.withdrawals[id].receipt < |w.db.receipts| && Rank(w.db.receipts[w.withdrawals[id].receipt].status) <= 1
    ensures WithdrawalsFit(w.db.receipts, SetWithdrawal(w, id, WithdrawalStatus.Rejected).withdrawals)
  {
    hide Rank;
    var ws := SetWithdrawal(w, id, WithdrawalStatus.Rejected).withdrawals;
    forall i | 0 <= i < |ws|
      ensures WithdrawalFits(w.db.receipts, ws[i])
    {
      assert WithdrawalFits(w.db.receipts, w.withdrawals[i]);
    }
  }

  // ----- Opening a row -----------------------------------------------------

  lemma StoredHoldCommits(w: World, a: Action, g: int)
    requires g > 0 && Attached(w) && GateOf(w, a).Proceed? && Opens(a) && FreshId(w, a)
    requires LedgerCall(w, a).Some? && Plan(w.db, LedgerCall(w, a).value).Ok?
    ensures HoldsFor(w, a, LedgerCall(w, a).value) && StakeOf(w, OpenedBy(a)).None?
    ensures var call := LedgerCall(w, a).value;
            var after, change := StoredInvoke(w.db, call, g).db, Plan(w.db, call).value.change;
            && change.Split? && change.at == call.op.receipt
            && StoredInvoke(w.db, call, g).reply == Ok(FreshReply(w.db, call.op))
            && after.receipts
               == w.db.receipts[change.at := Superseded(w.db.receipts[change.at])] + StoredRows(change.kids, g)
            && after.events == w.db.events + StoredEvents(Plan(w.db, call).value.events, g)
            && Framed(after) && RowsAged(w.db.receipts, after.receipts)
            && (forall key :: KeyUsed(after.events, key) <==> KeyUsed(w.db.events, key) || Uses(call, key))
            && (forall key :: Uses(call, key) ==> MayUse(w, key) && !MayRepeat(w, key))
  {
    hide GateOf, LedgerCall, Plan, StoredInvoke, StakeOf, MayUse, MayRepeat, Framed, LiensFit, RequestsSound,
         PledgesSound, WithdrawalsFit, LineEventsFit, RowsAged, FreshReply, KeyUsed, WithRelease, Joined, StoredEvents,
         Stored;
    var call := LedgerCall(w, a).value;
    AsksForAHold(w, a);
    StoredUnusedKeyCommits(w.db, call, g);
    HoldSplits(w.db, call);
  }

  lemma StoredOpeningKeepsWithdrawalsFit(w: World, after: Db, a: Action, reply: Reply, leaf: nat)
    requires GateOf(w, a).Proceed? && Opens(a) && Finish(w, after, a, reply).Some?
    requires reply.HoldReply? && reply.held == Some(leaf)
    requires WithdrawalsFit(after.receipts, w.withdrawals)
    requires a.ConfirmPayment? ==> leaf < |after.receipts| && after.receipts[leaf].tenant == a.tenant
    ensures WithdrawalsFit(after.receipts, Finish(w, after, a, reply).value.withdrawals)
  {
    hide CheckLines, TreeMass, AvailableForWithdrawal, Rank, Releasable;
    var v := Finish(w, after, a, reply).value;
    forall i | 0 <= i < |v.withdrawals|
      ensures WithdrawalFits(after.receipts, v.withdrawals[i])
    {
      assert WithdrawalFits(after.receipts, w.withdrawals[i]);
    }
  }

  /** Where the new rows of a split come from. */
  lemma NewKidsNameTheEvent(db: Db, call: Call, g: int)
    requires g > 0 && Framed(db) && Plan(db, call).Ok? && Plan(db, call).value.change.Split? && !call.op.Deposit?
    ensures forall k :: 0 <= k < |Plan(db, call).value.change.kids| ==>
              StoredRows(Plan(db, call).value.change.kids, g)[k].sourceEvent == Some(|db.events|)
  {
    hide Plan, Lineage, StatusRules, Sourced, LawfulNumbers, LawfulEvents, Stored, RowRules, SameLineage, Rank;
    PlanIsLawful(db, call);
  }

  lemma OpeningRestStaysAttached(w: World, v: World, call: Call, g: int)
    requires g > 0 && Attached(w) && !call.op.Deposit? && Plan(w.db, call).Ok? && Plan(w.db, call).value.change.Split?
    requires Framed(v.db) && RowsAged(w.db.receipts, v.db.receipts)
    requires v.db.receipts == w.db.receipts[call.op.receipt := v.db.receipts[call.op.receipt]]
                              + StoredRows(Plan(w.db, call).value.change.kids, g)
    requires call.op.receipt < |w.db.receipts| <= |v.db.receipts|
    requires v.db.events == w.db.events + StoredEvents(Plan(w.db, call).value.events, g)
    requires forall key :: KeyUsed(v.db.events, key) <==> KeyUsed(w.db.events, key) || Uses(call, key)
    requires forall key :: Uses(call, key) ==> MayUse(w, key) && !MayRepeat(w, key)
    requires v.requests == w.requests && v.liens == w.liens
    requires forall key :: MayUse(v, key) ==> MayUse(w, key) && !Uses(call, key)
    ensures KeysFree(v) && LineEventsFit(v) && RequestsSound(v.db.receipts, v.liens, v.requests)
  {
    hide Framed, Joined, LiensFit, PledgesSound, WithdrawalsFit, MayUse, Plan, Uses, RowsAged, LineEventsFit, KeysFree,
         RequestsSound, KeyUsed;
    assert forall key :: MayRepeat(v, key) <==> MayRepeat(w, key);
    KeysFreeAfter(w, v, call);
    NewEventsUse(w.db, v.db, call, g);
    NewKidsNameTheEvent(w.db, call, g);
    forall e, kind, id: nat, k: nat | |w.db.events| <= e < |v.db.events| && v.db.events[e].key == LineKey(kind, id, k)
      ensures id >= |v.requests|
    {
      assert Uses(call, v.db.events[e].key);
    }
    forall i: nat | |w.db.receipts| <= i < |v.db.receipts|
      ensures v.db.receipts[i].sourceEvent == Some(|w.db.events|)
    {
      assert v.db.receipts[i] == StoredRows(Plan(w.db, call).value.change.kids, g)[i - |w.db.receipts|];
    }
    LineEventsFitAfter(w, v);
    RequestsAge(w.db.receipts, v.db.receipts, w.liens, v.liens, w.requests);
  }

  lemma StoredOpeningKeepsAttached(w: World, a: Action, g: int)
    requires g > 0 && Attached(w) && GateOf(w, a).Proceed? && Opens(a) && FreshId(w, a)
    requires LedgerCall(w, a).Some? && Plan(w.db, LedgerCall(w, a).value).Ok?
    ensures StoredPerform(w, a, g).verdict.Done? && Attached(StoredPerform(w, a, g).world)
    ensures var v, c, call := StoredPerform(w, a, g).world, OpenedBy(a), LedgerCall(w, a).value;
            && OnlyChanged(w, v, {c}) && StakeOf(v, c).Some?
            && StakeOf(v, c).value.leaf == |w.db.receipts| < |v.db.receipts|
            && RowsAged(w.db.receipts, v.db.receipts)
            && call.op.Hold? && StakeOf(v, c).value.quantity == call.op.quantity
            && v.db.receipts[|w.db.receipts|].quantity == Stored(call.op.quantity, g)
  {
    hide GateOf, LedgerCall, Plan, StoredInvoke, StoredPerform, Finish, StakeOf, MayUse, MayRepeat, Uses, Framed,
         LiensFit, RequestsSound, KeysFree, PledgesSound, WithdrawalsFit, LineEventsFit, RowsAged, FreshReply, KeyUsed,
         Joined, StoredEvents, Stored, FreshId;
    StoredHoldCommits(w, a, g);
    var call, c, leaf := LedgerCall(w, a).value, OpenedBy(a), |w.db.receipts|;
    HoldSplits(w.db, call);
    var after, kids := StoredInvoke(w.db, call, g).db, StoredRows(Plan(w.db, call).value.change.kids, g);
    var reply := FreshReply(w.db, call.op);
    FinishOpens(w, after, a, reply, leaf);
    var v := Finish(w, after, a, reply).value;
    NotAnApproval(a);
    StoredUnfoldPerform(w, a, g);
    forall d | d != c
      ensures StakeOf(v, d) == StakeOf(w, d)
    {
      OpeningTouchesOneClaim(w, after, a, reply, d);
    }
    forall key
      ensures MayUse(v, key) ==> MayUse(w, key) && !Uses(call, key)
    {
      OpeningSpendsKey(w, after, a, reply, key);
    }
    OpeningKeepsPledges(w, after, a, reply);
    assert after.receipts[leaf] == kids[0];
    ConfirmHolds(w, a);
    WithdrawalsFitLater(w.db.receipts, after.receipts, w.withdrawals);
    StoredOpeningKeepsWithdrawalsFit(w, after, a, reply, leaf);
    UnapprovedIsPending(w, after, a, reply, leaf);
    JoinedAfterHolding(w, v, c, call.op.receipt, kids);
    OpeningRestStaysAttached(w, v, call, g);
  }

  /** The row opened says of its leaf what the hold made of it. */
  lemma UnapprovedIsPending(w: World, after: Db, a: Action, reply: Reply, leaf: nat)
    requires GateOf(w, a).Proceed? && Opens(a) && FreshId(w, a) && Finish(w, after, a, reply).Some?
    requires LedgerCall(w, a).Some? && HoldsFor(w, a, LedgerCall(w, a).value)
    requires var v, c := Finish(w, after, a, reply).value, OpenedBy(a);
             && StakeOf(v, c).Some? && StakeOf(v, c).value.leaf == leaf < |after.receipts|
             && StakeOf(v, c).value.tenant == LedgerCall(w, a).value.tenant == after.receipts[leaf].tenant
             && after.receipts[leaf].status == LedgerCall(w, a).value.op.heldStatus
             && after.receipts[leaf].txnId == Some(LedgerCall(w, a).value.op.txnId)
             && after.receipts[leaf].approval == PENDING
    ensures HeldFor(after.receipts, OpenedBy(a), StakeOf(Finish(w, after, a, reply).value, OpenedBy(a)).value)
  {
    hide GateOf, LedgerCall, Finish, StakeOf;
  }

  /** Opening over rounding columns: it takes what it asks for, or changes nothing. */
  lemma StoredOpensOrChangesNothing(w: World, a: Action, g: int)
    requires g > 0 && Attached(w) && GateOf(w, a).Proceed? && Opens(a) && FreshId(w, a)
    ensures LedgerCall(w, a).Some?
    ensures StoredPerform(w, a, g).verdict.Done? <==> Plan(w.db, LedgerCall(w, a).value).Ok?
    ensures StoredPerform(w, a, g).verdict.Refused? ==> StoredPerform(w, a, g).world == w
    ensures Attached(StoredPerform(w, a, g).world)
  {
    hide GateOf, LedgerCall, StoredPerform, Plan, Attached, StoredInvoke, Finish, StakeOf, MayUse, MayRepeat, FreshId,
         KeyUsed, FindEvent;
    AttachedParts(w);
    AsksForAHold(w, a);
    var call := LedgerCall(w, a).value;
    if Plan(w.db, call).Ok? {
      StoredOpeningKeepsAttached(w, a, g);
    } else {
      NotAnApproval(a);
      StoredUnfoldPerform(w, a, g);
      assert Uses(call, call.key);
      ExactlyOnce.FoundIsUsed(w.db.events, call.key);
      UnplannedIsRefused(w.db, call, g);
    }
  }

  lemma AttachedParts(w: World)
    requires Attached(w)
    ensures WithdrawalsFit(w.db.receipts, w.withdrawals)
    ensures forall key :: MayUse(w, key) && !MayRepeat(w, key) ==> !KeyUsed(w.db.events, key)
  {
    hide Framed, Joined, LineEventsFit, LiensFit, RequestsSound, PledgesSound, WithdrawalsFit, MayUse, MayRepeat,
         KeyUsed;
  }

  lemma UnplannedIsRefused(db: Db, call: Call, g: int)
    requires g > 0 && !call.op.Deposit? && FindEvent(db.events, call.key).None? && Plan(db, call).Err?
    ensures StoredInvoke(db, call, g) == Outcome(db, Err(Plan(db, call).error))
  {
    hide Plan, FindEvent;
  }

  // ----- Actions that hold nothing and let nothing go ----------------------

  lemma FiledLineIsSound(w: World, a: Action, k: nat)
    requires Joined(w) && LiensFit(w.liens) && a.CreateReleaseRequest? && GateOf(w, a).Proceed? && k < |a.inputs|
    ensures a.inputs[k].lien in w.liens
    ensures LineSound(w.db.receipts, w.liens,
                      Request(a.caller.tenant, a.caller, a.financier, [], RequestStatus.Pending),
                      Line(a.inputs[k].lien, w.liens[a.inputs[k].lien].receipt, a.inputs[k].quantity))
  {
    hide AskedOf, Claimed;
    assert CheckLine(w, a.caller, a.financier, a.inputs[k]).Proceed?;
    var lien := a.inputs[k].lien;
    assert LienFits(w.liens[lien]);
    assert HeldFor(w.db.receipts, Claim(LienClaim, lien), StakeOf(w, Claim(LienClaim, lien)).value);
  }

  lemma StoredRequestingKeepsAttached(w: World, a: Action, g: int)
    requires g > 0 && Attached(w) && a.CreateReleaseRequest? && GateOf(w, a).Proceed? && DistinctInputs(a.inputs)
    ensures StoredPerform(w, a, g).verdict.Done? && Attached(StoredPerform(w, a, g).world)
    ensures StoredPerform(w, a, g).world.db == w.db && OnlyChanged(w, StoredPerform(w, a, g).world, {})
  {
    hide Framed, KeysFree, PledgesSound, WithdrawalsFit, LineEventsFit, MayUse, StakeOf, CheckLine, HeldFor, Claimed,
         LienFits;
    RequestChecksLines(w, a);
    InputsAreOnFile(w, a.caller, a.financier, a.inputs);
    var v, r := StoredPerform(w, a, g).world,
      Request(a.caller.tenant, a.caller, a.financier, LinesOf(w, a.inputs), RequestStatus.Pending);
    assert v == w.(requests := w.requests + [r]);
    forall k | 0 <= k < |r.lines|
      ensures LineSound(w.db.receipts, w.liens, r, r.lines[k])
    {
      FiledLineIsSound(w, a, k);
    }
    hide StoredPerform, GateOf, Joined, LiensFit, CheckLines;
    NewRequestSound(w, r);
    ClaimsOf(w, v);
    NewRequestKeys(w, v, r);
    RowWriteKeepsAttached(w, v);
  }

  lemma NewRequestSound(w: World, r: Request)
    requires RequestsSound(w.db.receipts, w.liens, w.requests) && DistinctLiens(r.lines)
    requires forall k :: 0 <= k < |r.lines| ==> LineSound(w.db.receipts, w.liens, r, r.lines[k])
    ensures RequestsSound(w.db.receipts, w.liens, w.requests + [r])
  {
    hide LineSound;
    var requests := w.requests + [r];
    forall i | 0 <= i < |requests|
      ensures RequestSound(w.db.receipts, w.liens, requests[i])
    {
      if i < |w.requests| {
        assert RequestSound(w.db.receipts, w.liens, w.requests[i]);
      }
    }
  }

  lemma DroppingKeepsAttached(w: World, id: nat, status: RequestStatus)
    requires Attached(w) && id < |w.requests| && w.requests[id].status.Pending? && !status.Pending?
    ensures Attached(SetRequest(w, id, status)) && OnlyChanged(w, SetRequest(w, id, status), {})
  {
    hide Framed, Joined, KeysFree, LiensFit, PledgesSound, WithdrawalsFit, LineEventsFit, MayUse, StakeOf;
    var v := SetRequest(w, id, status);
    ClaimsOf(w, v);
    ClosedRequestKeys(w, id, status);
    forall i | 0 <= i < |v.requests|
      ensures RequestSound(v.db.receipts, v.liens, v.requests[i])
    {
      assert RequestSound(w.db.receipts, w.liens, w.requests[i]);
    }
    RowWriteKeepsAttached(w, v);
  }

  lemma BookingKeepsAttached(w: World, wd: Withdrawal)
    requires Attached(w) && wd.status.PendingPayment? && wd.receipt < |w.db.receipts|
    requires w.db.receipts[wd.receipt].tenant == wd.tenant && w.db.receipts[wd.receipt].status == ACTIVE
    ensures var v := w.(withdrawals := w.withdrawals + [wd]); Attached(v) && OnlyChanged(w, v, {})
  {
    hide Framed, Joined, KeysFree, LiensFit, PledgesSound, LineEventsFit, MayUse, StakeOf, RequestsSound;
    var v := w.(withdrawals := w.withdrawals + [wd]);
    BookingKeys(w, wd);
    forall i | 0 <= i < |v.withdrawals|
      ensures WithdrawalFits(v.db.receipts, v.withdrawals[i])
    {
      if i < |w.withdrawals| {
        assert WithdrawalFits(w.db.receipts, w.withdrawals[i]);
      }
    }
    RowWriteKeepsAttached(w, v);
  }

  lemma CleanupKeepsAttached(w: World)
    requires Attached(w)
    ensures var v := w.(withdrawals := CleanUp(w.withdrawals, w.now)); Attached(v) && OnlyChanged(w, v, {})
  {
    hide Framed, Joined, KeysFree, LiensFit, PledgesSound, LineEventsFit, MayUse, StakeOf, RequestsSound, Rank;
    var v := w.(withdrawals := CleanUp(w.withdrawals, w.now));
    CleanupKeys(w);
    forall i | 0 <= i < |v.withdrawals|
      ensures WithdrawalFits(v.db.receipts, v.withdrawals[i])
    {
      assert WithdrawalFits(w.db.receipts, w.withdrawals[i]);
    }
    RowWriteKeepsAttached(w, v);
  }

  lemma TimeKeepsAttached(w: World, ms: nat)
    requires Attached(w)
    ensures var v := w.(now := w.now + ms); Attached(v) && OnlyChanged(w, v, {})
  {
    hide Framed, Joined, KeysFree, LiensFit, PledgesSound, LineEventsFit, MayUse, StakeOf, RequestsSound,
         WithdrawalsFit;
    var v := w.(now := w.now + ms);
    ClaimsOf(w, v);
    TimeOpensNoKeys(w, w.now + ms);
    RowWriteKeepsAttached(w, v);
  }

  // ----- The desk ----------------------------------------------------------

  lemma StoredDeskTouchesNothingHeld(db: Db, call: Call, g: int)
    requires g > 0 && Plan(db, call).Ok?
    requires call.op.Deposit? || call.op.ApproveReceipt? || call.op.RejectReceipt? || call.op.Expire?
    ensures var before, after := db.receipts, Changed(db.receipts, StoredChange(Plan(db, call).value.change, g));
            && |before| <= |after|
            && (forall i: nat :: i < |after| && (after[i].status in HELD || (i < |before| && before[i].status in HELD))
                  ==> i < |before| && after[i] == before[i])
            && (forall i: nat :: |before| <= i < |after| ==> after[i].sourceEvent == Some(|db.events|))
  {
    hide SplitSuffixes, Partition, Child, KeyUsed, Stored;
  }

  lemma StoredDeskKeys(w: World, call: Call, g: int)
    requires g > 0 && KeysFree(w) && LineEventsFit(w) && DeskCall(w, call) && Plan(w.db, call).Ok?
    requires var after := StoredInvoke(w.db, call, g).db;
             && after.events == w.db.events + StoredEvents(Plan(w.db, call).value.events, g)
             && RowsAged(w.db.receipts, after.receipts)
             && (forall i: nat :: |w.db.receipts| <= i < |after.receipts| ==>
                   after.receipts[i].sourceEvent == Some(|w.db.events|))
    ensures var v := w.(db := StoredInvoke(w.db, call, g).db); KeysFree(v) && LineEventsFit(v)
  {
    hide StoredInvoke, Plan, KeyUsed, MayUse, RowsAged, LineEventsFit, StoredEvents;
    var v, events := w.(db := StoredInvoke(w.db, call, g).db), StoredEvents(Plan(w.db, call).value.events, g);
    NewEventsUse(w.db, v.db, call, g);
    forall key | MayUse(v, key) && !MayRepeat(v, key)
      ensures !KeyUsed(v.db.events, key)
    {
      LedgerAloneKeepsKeys(w, v, key);
      KeyUsedAppend(w.db.events, events, key);
      forall e | 0 <= e < |events|
        ensures events[e].key != key
      {
        assert v.db.events[|w.db.events| + e] == events[e];
        assert Uses(call, events[e].key);
      }
    }
    forall e, kind, id: nat, k: nat | |w.db.events| <= e < |v.db.events| && v.db.events[e].key == LineKey(kind, id, k)
      ensures id >= |v.requests| || !v.requests[id].status.Pending?
    {
      assert Uses(call, v.db.events[e].key);
      if id < |v.requests| && v.requests[id].status.Pending? {
        LineKeyMayBeUsed(w, kind, id, k);
      }
    }
    LineEventsFitAfter(w, v);
  }

  lemma StoredDeskKeepsAttached(w: World, call: Call, g: int)
    requires g > 0 && Attached(w) && DeskCall(w, call)
    ensures var v := w.(db := StoredInvoke(w.db, call, g).db);
            Attached(v) && OnlyChanged(w, v, {}) && RowsAged(w.db.receipts, v.db.receipts)
  {
    hide StoredInvoke, Plan, Framed, LiensFit, RequestsSound, KeysFree, PledgesSound, RowsAged, KeyUsed, Joined,
         MayUse, StakeOf, Collides, WithdrawalsFit, LineEventsFit, Commits, StoredEvents, StoredChange;
    var v := w.(db := StoredInvoke(w.db, call, g).db);
    StoredCallWrites(w.db, call, g);
    StoredCallKeepsFramed(w.db, call, g);
    StoredCallAgesRows(w.db, call, g);
    ClaimsOf(w, v);
    if Commits(w.db, call, g) {
      StoredDeskTouchesNothingHeld(w.db, call, g);
      JoinedAside(w, v);
      StoredDeskKeys(w, call, g);
      RequestsAge(w.db.receipts, v.db.receipts, w.liens, v.liens, w.requests);
      WithdrawalsFitLater(w.db.receipts, v.db.receipts, w.withdrawals);
    }
  }
}
