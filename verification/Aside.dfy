/** Actions that hold nothing and let nothing go: release requests and their
    cancellation, unpaid withdrawals and their cleanup, the ledger's own desk, and
    time. */
module Aside {
  import opened InventoryTypes
  import opened Mass
  import opened Ledger
  import opened LedgerInvariant
  import opened Tables
  import opened Services
  import opened Coupling
  import opened Stability

  // ----- Release requests --------------------------------------------------

  ghost predicate DistinctInputs(inputs: seq<LineInput>) {
    forall j, k :: 0 <= j < k < |inputs| ==> inputs[j].lien != inputs[k].lien
  }

  lemma AcceptedLineIsSound(w: World, a: Action, k: nat)
    requires Healthy(w) && a.CreateReleaseRequest? && GateOf(w, a).Proceed? && k < |a.inputs|
    ensures CheckLine(w, a.caller, a.financier, a.inputs[k]).Proceed? && a.inputs[k].lien in w.liens
    ensures var lien := a.inputs[k].lien;
            && LineSound(w.db.receipts, w.liens,
                         Request(a.caller.tenant, a.caller, a.financier, [], RequestStatus.Pending),
                         Line(lien, w.liens[lien].receipt, a.inputs[k].quantity))
            && !w.liens[lien].forced
            && a.inputs[k].quantity <= w.liens[lien].remaining - AskedOf(w.requests, RequestStatus.Pending, lien)
  {
    hide Sound, RequestsSound, WindowSound, WithdrawalsSound, PledgesSound, KeysAhead, AskedOf, Claimed;
    assert CheckLine(w, a.caller, a.financier, a.inputs[k]).Proceed?;
    var lien := a.inputs[k].lien;
    assert LienSound(w.liens[lien], w.requests, lien);
    assert Backs(w.db.receipts, Claim(LienClaim, lien), StakeOf(w, Claim(LienClaim, lien)).value);
  }

  /** The lines of one new request, which names distinct liens, ask of a lien at most
      what is left of it. */
  lemma NewLinesFit(w: World, a: Action, lien: nat)
    requires Healthy(w) && a.CreateReleaseRequest? && GateOf(w, a).Proceed? && DistinctInputs(a.inputs)
    requires forall k :: 0 <= k < |a.inputs| ==> a.inputs[k].lien in w.liens
    requires lien in w.liens && !w.liens[lien].forced
    ensures AskedOf(w.requests, RequestStatus.Pending, lien)
            + LineSum(LinesOf(w, a.inputs), lien) <= w.liens[lien].remaining
  {
    hide Healthy, GateOf, AskedOf, LineSum;
    var lines := LinesOf(w, a.inputs);
    if k :| 0 <= k < |lines| && lines[k].lien == lien {
      AcceptedLineIsSound(w, a, k);
      LineSumDistinct(lines, k);
    } else {
      LineSumAbsent(lines, lien);
      LienIsSound(w, lien);
    }
  }

  lemma LienIsSound(w: World, lien: nat)
    requires Healthy(w) && lien in w.liens
    ensures LienSound(w.liens[lien], w.requests, lien)
  {
    hide AskedOf, Sound, Coupled, KeysAhead, RequestsSound, PledgesSound, WithdrawalsSound, WindowSound;
  }

  lemma NewRequestKeepsBooks(w: World, a: Action, r: Request)
    requires Healthy(w) && a.CreateReleaseRequest? && GateOf(w, a).Proceed? && DistinctInputs(a.inputs)
    requires forall k :: 0 <= k < |a.inputs| ==> a.inputs[k].lien in w.liens
    requires r == Request(a.caller.tenant, a.caller, a.financier, LinesOf(w, a.inputs), RequestStatus.Pending)
    ensures LiensSound(w.liens, w.requests + [r])
    ensures RequestSound(w.db.receipts, w.liens, r)
  {
    hide Healthy, GateOf, AskedOf, CheckLine;
    forall id | id in w.liens
      ensures LienSound(w.liens[id], w.requests + [r], id)
    {
      LienIsSound(w, id);
      AskedPush(w.requests, r, RequestStatus.Pending, id);
      AskedPush(w.requests, r, RequestStatus.Approved, id);
      if !w.liens[id].forced {
        NewLinesFit(w, a, id);
      }
    }
    forall k | 0 <= k < |r.lines|
      ensures LineSound(w.db.receipts, w.liens, r, r.lines[k])
    {
      AcceptedLineIsSound(w, a, k);
    }
  }

  lemma RequestingKeepsHealthy(w: World, a: Action)
    requires Healthy(w) && a.CreateReleaseRequest? && GateOf(w, a).Proceed? && DistinctInputs(a.inputs)
    ensures Perform(w, a).verdict.Done? && Healthy(Perform(w, a).world)
  {
    hide Perform, GateOf, Healthy, LiensSound, RequestSound, LinesOf;
    RequestChecksLines(w, a);
    InputsAreOnFile(w, a.caller, a.financier, a.inputs);
    var r := Request(a.caller.tenant, a.caller, a.financier, LinesOf(w, a.inputs), RequestStatus.Pending);
    RequestIsFiled(w, a, r);
    NewRequestKeepsBooks(w, a, r);
    FiledRequestKeepsHealthy(w, r);
  }

  lemma InputsAreOnFile(w: World, caller: User, financier: string, inputs: seq<LineInput>)
    requires CheckLines(w, caller, financier, inputs).Proceed?
    ensures forall k :: 0 <= k < |inputs| ==> inputs[k].lien in w.liens
  {
    hide AskedOf;
    forall k | 0 <= k < |inputs|
      ensures inputs[k].lien in w.liens
    {
      assert CheckLine(w, caller, financier, inputs[k]).Proceed?;
    }
  }

  lemma RequestChecksLines(w: World, a: Action)
    requires a.CreateReleaseRequest? && GateOf(w, a).Proceed?
    ensures CheckLines(w, a.caller, a.financier, a.inputs).Proceed?
  {
    hide CheckLines;
  }

  lemma RequestIsFiled(w: World, a: Action, r: Request)
    requires a.CreateReleaseRequest? && GateOf(w, a).Proceed?
    requires forall k :: 0 <= k < |a.inputs| ==> a.inputs[k].lien in w.liens
    requires r == Request(a.caller.tenant, a.caller, a.financier, LinesOf(w, a.inputs), RequestStatus.Pending)
    ensures Perform(w, a) == Served(w.(requests := w.requests + [r]), Done)
  {
    hide CheckLines;
  }

  lemma FiledRequestKeepsHealthy(w: World, r: Request)
    requires Healthy(w) && LiensSound(w.liens, w.requests + [r]) && RequestSound(w.db.receipts, w.liens, r)
    ensures Healthy(w.(requests := w.requests + [r]))
  {
    hide Sound, WindowSound, WithdrawalsSound, PledgesSound, KeysAhead, Coupled, LiensSound, MayUse, StakeOf,
         RequestSound;
    var v := w.(requests := w.requests + [r]);
    CoupledAside(w, v) by { ClaimsOf(w, v); }
    KeysAheadAside(w, v) by { NewRequestKeys(w, v, r); }
    forall i | 0 <= i < |v.requests|
      ensures RequestSound(v.db.receipts, v.liens, v.requests[i])
    {
      if i < |w.requests| {
        assert RequestSound(w.db.receipts, w.liens, w.requests[i]);
      }
    }
  }

  /** Claims do not look at release requests, nor at withdrawals that hold nothing. */
  lemma ClaimsOf(w: World, v: World)
    requires v.pledges == w.pledges && v.liens == w.liens && v.withdrawals == w.withdrawals && v.loans == w.loans
    requires v.trades == w.trades
    ensures OnlyChanged(w, v, {})
  {
  }

  lemma NewRequestKeys(w: World, v: World, r: Request)
    requires v == w.(requests := w.requests + [r])
    ensures forall key :: MayUse(v, key) ==> MayUse(w, key)
  {
  }

  lemma ClosedRequestKeys(w: World, id: nat, status: RequestStatus)
    requires id < |w.requests|
    requires w.requests[id].status.Pending?
    ensures forall key :: MayUse(SetRequest(w, id, status), key) ==> MayUse(w, key)
  {
    var v := SetRequest(w, id, status);
    forall key | MayUse(v, key)
      ensures MayUse(w, key)
    {
      match key
      case Part(Text(ReleaseWord), Part(Text(kind), Part(Uuid(i), Part(Uuid(line), End)))) =>
        assert i < |v.requests| ==> v.requests[i].status.Pending?;
      case _ =>
    }
  }

  /** A request that will not be approved asks nothing any more. */
  lemma DroppingRequestKeepsHealthy(w: World, id: nat, status: RequestStatus)
    requires Healthy(w) && id < |w.requests| && w.requests[id].status.Pending?
    requires (status.Cancelled? || status.Rejected?)
    ensures Healthy(SetRequest(w, id, status))
  {
    hide Sound, WindowSound, WithdrawalsSound, PledgesSound, KeysAhead, Coupled, MayUse, StakeOf, AskedOf, LineSum;
    var v := SetRequest(w, id, status);
    CoupledAside(w, v) by { ClaimsOf(w, v); }
    KeysAheadAside(w, v) by { ClosedRequestKeys(w, id, status); }
    assert RequestSound(w.db.receipts, w.liens, w.requests[id]);
    forall l | l in v.liens
      ensures LienSound(v.liens[l], v.requests, l)
    {
      assert LienSound(w.liens[l], w.requests, l);
      AskedSet(w.requests, id, v.requests[id], RequestStatus.Pending, l);
      AskedSet(w.requests, id, v.requests[id], RequestStatus.Approved, l);
      forall k | 0 <= k < |w.requests[id].lines|
        ensures w.requests[id].lines[k].quantity > 0
      {
        assert LineSound(w.db.receipts, w.liens, w.requests[id], w.requests[id].lines[k]);
      }
      LineSumNonnegative(w.requests[id].lines, l);
    }
    forall i | 0 <= i < |v.requests|
      ensures RequestSound(v.db.receipts, v.liens, v.requests[i])
    {
      assert RequestSound(w.db.receipts, w.liens, w.requests[i]);
    }
  }

  // ----- Unpaid withdrawals ------------------------------------------------

  /** A new reservation fits beside the ones inside the window. */
  lemma NewReservationFits(receipts: seq<Receipt>, now: int, ws: seq<Withdrawal>, wd: Withdrawal)
    requires WithdrawalsSound(receipts, now, ws) && WindowSound(receipts, now, ws)
    requires WithdrawalSound(receipts, now, wd) && wd.status.PendingPayment? && wd.createdAt == now
    requires wd.quantity <= AvailableForWithdrawal(ws, now, wd.tenant, wd.receipt, receipts[wd.receipt].quantity)
    requires !exists i :: 0 <= i < |ws| && ws[i].client == wd.client && Reserving(ws[i], now, wd.tenant, wd.receipt)
    ensures WithdrawalsSound(receipts, now, ws + [wd]) && WindowSound(receipts, now, ws + [wd])
  {
    hide Rank;
    var later, n := ws + [wd], |ws|;
    assert WithdrawalQuantities(later) == WithdrawalQuantities(ws) + [wd.quantity];
    forall x: nat | x < |receipts|
      ensures Sum(WithdrawalQuantities(later), ReservingIds(later, now, receipts[x].tenant, x)) <= receipts[x].quantity
    {
      var before, mine := ReservingIds(ws, now, receipts[x].tenant, x), ReservingIds(later, now, receipts[x].tenant, x);
      SumPush(WithdrawalQuantities(ws), wd.quantity, mine);
      SumAgree(WithdrawalQuantities(ws), mine, before);
    }
    forall i | 0 <= i < |later|
      ensures WithdrawalSound(receipts, now, later[i])
    {
      assert i < n ==> WithdrawalSound(receipts, now, ws[i]);
    }
  }

  lemma BookingIsOneRow(w: World, a: Action)
    requires a.CreateWithdrawal? && GateOf(w, a).Proceed?
    ensures var wd := Withdrawal(a.tenant, a.client, a.receipt, a.quantity, PendingPayment, w.now);
            && Perform(w, a) == Served(w.(withdrawals := w.withdrawals + [wd]), Done)
            && wd.quantity > 0
            && wd.receipt < |w.db.receipts| && w.db.receipts[wd.receipt].tenant == wd.tenant
            && w.db.receipts[wd.receipt].status == ACTIVE
            && wd.quantity <= AvailableForWithdrawal(w.withdrawals, w.now, wd.tenant, wd.receipt,
                                                     w.db.receipts[wd.receipt].quantity)
            && !exists i :: 0 <= i < |w.withdrawals| && w.withdrawals[i].client == wd.client
                            && Reserving(w.withdrawals[i], w.now, wd.tenant, wd.receipt)
  {
    hide CheckLines, TreeMass, AvailableForWithdrawal, Reserving;
  }

  lemma BookingKeys(w: World, wd: Withdrawal)
    requires wd.status.PendingPayment?
    ensures var v := w.(withdrawals := w.withdrawals + [wd]);
            (forall key :: MayUse(v, key) ==> MayUse(w, key)) && OnlyChanged(w, v, {})
  {
  }

  /** What is available of a receipt is at most its quantity. */
  lemma AvailableIsWithin(receipts: seq<Receipt>, now: int, ws: seq<Withdrawal>, tenant: string, x: nat)
    requires WithdrawalsSound(receipts, now, ws)
    ensures forall quantity :: AvailableForWithdrawal(ws, now, tenant, x, quantity) <= quantity
  {
    forall i: nat | i < |ws| && i in ReservingIds(ws, now, tenant, x)
      ensures WithdrawalQuantities(ws)[i] >= 0
    {
      assert WithdrawalSound(receipts, now, ws[i]);
    }
    SumNonnegative(WithdrawalQuantities(ws), ReservingIds(ws, now, tenant, x));
  }

  lemma BookingKeepsHealthy(w: World, a: Action)
    requires Healthy(w) && a.CreateWithdrawal? && GateOf(w, a).Proceed?
    ensures Perform(w, a).verdict.Done? && Healthy(Perform(w, a).world)
  {
    hide Perform, GateOf, Sound, WindowSound, WithdrawalsSound, PledgesSound, KeysAhead, Coupled, LiensSound,
         RequestsSound, MayUse, StakeOf, AvailableForWithdrawal, Reserving;
    BookingIsOneRow(w, a);
    AvailableIsWithin(w.db.receipts, w.now, w.withdrawals, a.tenant, a.receipt);
    var wd := Withdrawal(a.tenant, a.client, a.receipt, a.quantity, PendingPayment, w.now);
    var v := Perform(w, a).world;
    BookingKeys(w, wd);
    CoupledAside(w, v);
    KeysAheadAside(w, v);
    NewReservationFits(w.db.receipts, w.now, w.withdrawals, wd);
  }

  /** The cleanup job only touches rows that had stopped reserving, so what is
      available for withdrawal is the same before and after it, for every receipt. */
  lemma CleanupChangesNothingAvailable(ws: seq<Withdrawal>, now: int, tenant: string, x: nat, quantity: int)
    ensures AvailableForWithdrawal(CleanUp(ws, now), now, tenant, x, quantity)
         == AvailableForWithdrawal(ws, now, tenant, x, quantity)
    ensures forall i: nat :: i < |ws| ==> (Reserving(CleanUp(ws, now)[i], now, tenant, x)
                                           <==> Reserving(ws[i], now, tenant, x))
  {
    var later := CleanUp(ws, now);
    assert WithdrawalQuantities(later) == WithdrawalQuantities(ws);
    assert ReservingIds(later, now, tenant, x) == ReservingIds(ws, now, tenant, x);
  }

  lemma CleanupKeys(w: World)
    ensures var v := w.(withdrawals := CleanUp(w.withdrawals, w.now));
            (forall key :: MayUse(v, key) ==> MayUse(w, key)) && OnlyChanged(w, v, {})
  {
    var v := w.(withdrawals := CleanUp(w.withdrawals, w.now));
    forall key | MayUse(v, key)
      ensures MayUse(w, key)
    {
      match key
      case Part(Text(WithdrawalWord), Part(Uuid(i), Part(Text(step), End))) =>
        assert i < |w.withdrawals| ==> v.withdrawals[i] == CleanedUp(w.withdrawals[i], w.now);
      case _ =>
    }
  }

  lemma CleanupKeepsWindow(receipts: seq<Receipt>, now: int, ws: seq<Withdrawal>)
    requires WithdrawalsSound(receipts, now, ws) && WindowSound(receipts, now, ws)
    ensures WithdrawalsSound(receipts, now, CleanUp(ws, now)) && WindowSound(receipts, now, CleanUp(ws, now))
  {
    hide Reserving, AvailableForWithdrawal, Rank;
    var later := CleanUp(ws, now);
    forall i | 0 <= i < |later|
      ensures WithdrawalSound(receipts, now, later[i])
    {
      assert WithdrawalSound(receipts, now, ws[i]);
    }
    assert WithdrawalQuantities(later) == WithdrawalQuantities(ws);
    forall x: nat | x < |receipts|
      ensures Sum(WithdrawalQuantities(later), ReservingIds(later, now, receipts[x].tenant, x)) <= receipts[x].quantity
    {
      CleanupChangesNothingAvailable(ws, now, receipts[x].tenant, x, 0);
      assert ReservingIds(later, now, receipts[x].tenant, x) == ReservingIds(ws, now, receipts[x].tenant, x);
    }
    forall i, j, tenant, x | 0 <= i < j < |later| && Reserving(later[i], now, tenant, x)
      && Reserving(later[j], now, tenant, x)
      ensures later[i].client != later[j].client
    {
      CleanupChangesNothingAvailable(ws, now, tenant, x, 0);
    }
  }

  lemma CleanupKeepsHealthy(w: World)
    requires Healthy(w)
    ensures Healthy(w.(withdrawals := CleanUp(w.withdrawals, w.now)))
  {
    hide Sound, PledgesSound, KeysAhead, Coupled, LiensSound, RequestsSound, WithdrawalsSound, WindowSound, MayUse,
         StakeOf, CleanUp;
    var v := w.(withdrawals := CleanUp(w.withdrawals, w.now));
    CleanupKeys(w);
    CoupledAside(w, v);
    KeysAheadAside(w, v);
    CleanupKeepsWindow(w.db.receipts, w.now, w.withdrawals);
  }

  /** Reservations only lapse as time passes. */
  lemma TimeKeepsHealthy(w: World, ms: nat)
    requires Healthy(w)
    ensures Healthy(w.(now := w.now + ms))
  {
    hide Sound, PledgesSound, KeysAhead, Coupled, LiensSound, RequestsSound, MayUse, StakeOf, Rank;
    var later, ws, receipts := w.now + ms, w.withdrawals, w.db.receipts;
    var v := w.(now := later);
    CoupledAside(w, v) by { ClaimsOf(w, v); }
    KeysAheadAside(w, v) by { TimeOpensNoKeys(w, later); }
    forall i | 0 <= i < |ws|
      ensures WithdrawalSound(receipts, later, ws[i])
    {
      assert WithdrawalSound(receipts, w.now, ws[i]);
    }
    forall x: nat | x < |receipts|
      ensures Sum(WithdrawalQuantities(ws), ReservingIds(ws, later, receipts[x].tenant, x)) <= receipts[x].quantity
    {
      SumMonotone(WithdrawalQuantities(ws), ReservingIds(ws, later, receipts[x].tenant, x),
                  ReservingIds(ws, w.now, receipts[x].tenant, x));
    }
    assert forall i, tenant, x :: 0 <= i < |ws| && Reserving(ws[i], later, tenant, x) ==>
        Reserving(ws[i], w.now, tenant, x);
  }

  lemma TimeOpensNoKeys(w: World, later: int)
    ensures forall key :: MayUse(w.(now := later), key) ==> MayUse(w, key)
  {
  }

  // ----- The ledger's own desk ---------------------------------------------

  /** Deposits, their approval or rejection, and expiry come in beside the services,
      under keys of their own. */
  predicate DeskCall(w: World, call: Call) {
    && (call.op.Deposit? || call.op.ApproveReceipt? || call.op.RejectReceipt? || call.op.Expire?)
    && !MayUse(w, call.key)
  }

  lemma DeskTouchesNothingHeld(db: Db, call: Call)
    requires Plan(db, call).Ok?
    requires (call.op.Deposit? || call.op.ApproveReceipt? || call.op.RejectReceipt? || call.op.Expire?)
    ensures var before, after := db.receipts, Changed(db.receipts, Plan(db, call).value.change);
            && |before| <= |after|
            && forall i: nat :: i < |after| && (after[i].status in HELD || (i < |before| && before[i].status in HELD))
                 ==> i < |before| && after[i] == before[i]
  {
    hide SplitSuffixes, Partition, Child, KeyUsed;
  }

  lemma DeskKeepsHealthy(w: World, call: Call)
    requires Healthy(w) && DeskCall(w, call)
    ensures Healthy(w.(db := Invoke(w.db, call).db))
  {
    hide Invoke, Plan, Sound, LiensSound, RequestsSound, WindowSound, KeysAhead, PledgesSound, WithdrawalsSound,
         RowsAged, KeyUsed, Coupled, MayUse, StakeOf, Collides, Lawful;
    var v := w.(db := Invoke(w.db, call).db);
    if v.db != w.db {
      CallWritesItsPlan(w.db, call);
      CallKeepsSound(w.db, call);
      CallAgesRows(w.db, call);
      RestingPartsSurvive(w, v.db, w.liens);
      DeskTouchesNothingHeld(w.db, call);
      CoupledAside(w, v) by { ClaimsOf(w, v); }
      DeskKeys(w, call);
    }
  }

  lemma DeskKeys(w: World, call: Call)
    requires KeysAhead(w) && DeskCall(w, call) && Plan(w.db, call).Ok?
    requires Invoke(w.db, call).db == After(w.db, Plan(w.db, call).value)
    ensures KeysAhead(w.(db := Invoke(w.db, call).db))
  {
    hide Invoke, Plan, KeyUsed, MayUse;
    var v := w.(db := Invoke(w.db, call).db);
    forall key | MayUse(v, key)
      ensures !KeyUsed(v.db.events, key)
    {
      LedgerAloneKeepsKeys(w, v, key);
      KeyUsedAppend(w.db.events, Plan(w.db, call).value.events, key);
      PlanUses(w.db, call, key);
    }
  }

  lemma LedgerAloneKeepsKeys(w: World, v: World, key: Key)
    requires v == w.(db := v.db)
    ensures MayUse(v, key) <==> MayUse(w, key)
  {
  }
}
