/** What holds in every state that service calls, run one at a time, can reach. */
module Reachable {
  import opened InventoryTypes
  import opened Ledger
  import opened LedgerInvariant
  import opened Tables
  import opened Services
  import opened Coupling
  import opened Stability
  import opened Guards
  import opened Closing
  import opened Opening
  import opened Aside
  import opened ApprovalLoop

  // ----- Approving a release request ---------------------------------------

  lemma PendingIsApprovable(w: World, id: nat)
    requires Healthy(w) && id < |w.requests| && w.requests[id].status.Pending? && Releasable(w, w.requests[id].lines)
    ensures Approvable(w, id) && DistinctLiens(w.requests[id].lines)
  {
    hide Sound, Coupled, LiensSound, PledgesSound, WithdrawalsSound, WindowSound, KeyUsed;
    assert RequestSound(w.db.receipts, w.liens, w.requests[id]);
    forall k: nat | k < |w.requests[id].lines|
      ensures LineIsReady(w, id, k)
    {
      assert LineSound(w.db.receipts, w.liens, w.requests[id], w.requests[id].lines[k]);
      assert MayUse(w, LineKey(FullWord, id, k)) && MayUse(w, LineKey(PartialWord, id, k));
    }
  }

  /** A pending request can be approved exactly as long as none of its liens has been
      force-released: reservations never over-commit a lien. */
  lemma OnlyForceReleaseBlocksApproval(w: World, id: nat)
    requires Healthy(w) && id < |w.requests| && w.requests[id].status.Pending?
    ensures Releasable(w, w.requests[id].lines) <==>
              forall k :: 0 <= k < |w.requests[id].lines| ==>
                w.requests[id].lines[k].lien in w.liens && !w.liens[w.requests[id].lines[k].lien].forced
  {
    hide Sound, Coupled, KeysAhead, PledgesSound, WithdrawalsSound, WindowSound, AskedOf, LineSum;
    var lines := w.requests[id].lines;
    assert RequestSound(w.db.receipts, w.liens, w.requests[id]);
    LinesArePositive(w);
    forall k | 0 <= k < |lines|
      ensures lines[k].lien in w.liens
      ensures LineReleasable(w, lines[k]) <==> !w.liens[lines[k].lien].forced
    {
      assert LineSound(w.db.receipts, w.liens, w.requests[id], lines[k]);
      assert LienSound(w.liens[lines[k].lien], w.requests, lines[k].lien);
      AskedAtLeast(w.requests, id, lines[k].lien);
      LineSumDistinct(lines, k);
    }
  }

  lemma LinesArePositive(w: World)
    requires Healthy(w)
    ensures PositiveLines(w.requests)
  {
    hide Sound, Coupled, KeysAhead, LiensSound, PledgesSound, WithdrawalsSound, WindowSound;
    forall r | r in w.requests
      ensures forall k :: 0 <= k < |r.lines| ==> r.lines[k].quantity > 0
    {
      var i :| 0 <= i < |w.requests| && w.requests[i] == r;
      assert RequestSound(w.db.receipts, w.liens, w.requests[i]);
      forall k | 0 <= k < |r.lines|
        ensures r.lines[k].quantity > 0
      {
        assert LineSound(w.db.receipts, w.liens, r, r.lines[k]);
      }
    }
  }

  lemma ApprovalKeepsBooks(w: World, v: World, id: nat)
    requires id < |w.requests| && w.requests[id].status.Pending? && DistinctLiens(w.requests[id].lines)
    requires LiensSound(w.liens, w.requests) && LiensMoved(w, v, id, |w.requests[id].lines|)
    requires forall k :: 0 <= k < |w.requests[id].lines| ==>
               w.requests[id].lines[k].quantity > 0 && w.requests[id].lines[k].lien in w.liens
               && !w.liens[w.requests[id].lines[k].lien].forced
               && w.requests[id].lines[k].quantity <= w.liens[w.requests[id].lines[k].lien].remaining
    requires v.requests == w.requests[id := w.requests[id].(status := RequestStatus.Approved)]
    ensures LiensSound(v.liens, v.requests)
  {
    hide AskedOf, LineSum;
    var lines := w.requests[id].lines;
    forall l | l in v.liens
      ensures LienSound(v.liens[l], v.requests, l)
    {
      assert LienSound(w.liens[l], w.requests, l);
      AskedSet(w.requests, id, v.requests[id], RequestStatus.Pending, l);
      AskedSet(w.requests, id, v.requests[id], RequestStatus.Approved, l);
      if k :| 0 <= k < |lines| && lines[k].lien == l {
        LineSumDistinct(lines, k);
        assert LessItsLine(w.liens[l], lines[k], v.liens[l]);
      } else {
        LineSumAbsent(lines, l);
        assert v.liens[l] == w.liens[l];
      }
    }
  }

  lemma ApprovalKeysAhead(w: World, v: World, id: nat)
    requires Approvable(w, id) && KeysAhead(w) && w.requests[id].status.Pending?
    requires LiensMoved(w, v, id, |w.requests[id].lines|) && KeysSpent(w, v, id, |w.requests[id].lines|)
    requires v
         == w.(db := v.db, liens := v.liens,
               requests := w.requests[id := w.requests[id].(status := RequestStatus.Approved)])
    ensures KeysAhead(v)
  {
    hide Approvable, KeyUsed, LiensMoved;
    forall key | MayUse(v, key)
      ensures !KeyUsed(v.db.events, key)
    {
      ApprovedKeysWereAhead(w, v, id, key);
    }
  }

  lemma ApprovedKeysWereAhead(w: World, v: World, id: nat, key: Key)
    requires Approvable(w, id) && w.requests[id].status.Pending? && LiensMoved(w, v, id, |w.requests[id].lines|)
    requires v
         == w.(db := v.db, liens := v.liens,
               requests := w.requests[id := w.requests[id].(status := RequestStatus.Approved)])
    requires MayUse(v, key)
    ensures MayUse(w, key) && !SpentBy(w, id, |w.requests[id].lines|, key)
  {
    hide Sound, Coupled, Releasable, LineIsReady;
    match key
    case Part(Text(ReleaseWord), Part(Text(kind), Part(Uuid(i), Part(Uuid(line), End)))) =>
      assert i < |v.requests| ==> v.requests[i].status.Pending?;
    case Part(Text(LienWord), Part(Text(ForceReleaseWord), Part(Uuid(l), End))) =>
      assert l in w.liens ==> v.liens[l].forced == w.liens[l].forced;
    case _ =>
  }

  lemma ApprovalRests(w: World, v: World, id: nat)
    requires Healthy(w) && id < |w.requests|
    requires Sound(v.db) && RowsAged(w.db.receipts, v.db.receipts)
    requires LiensMoved(w, v, id, |w.requests[id].lines|)
    requires v
         == w.(db := v.db, liens := v.liens,
               requests := w.requests[id := w.requests[id].(status := RequestStatus.Approved)])
    ensures RequestsSound(v.db.receipts, v.liens, v.requests)
    ensures WithdrawalsSound(v.db.receipts, v.now, v.withdrawals) && WindowSound(v.db.receipts, v.now, v.withdrawals)
    ensures PledgesSound(v.pledges, v.liens)
  {
    hide Sound, Coupled, KeysAhead, LiensSound, WithdrawalsSound, WindowSound, RowsAged;
    RestingPartsSurvive(w, v.db, v.liens);
    forall i | 0 <= i < |v.requests|
      ensures RequestSound(v.db.receipts, v.liens, v.requests[i])
    {
      assert RequestSound(v.db.receipts, v.liens, w.requests[i]);
    }
  }

  lemma FitsAtApproval(w: World, id: nat)
    requires Healthy(w) && id < |w.requests| && w.requests[id].status.Pending? && Releasable(w, w.requests[id].lines)
    ensures forall k :: 0 <= k < |w.requests[id].lines| ==>
              w.requests[id].lines[k].quantity > 0 && w.requests[id].lines[k].lien in w.liens
              && !w.liens[w.requests[id].lines[k].lien].forced
              && w.requests[id].lines[k].quantity <= w.liens[w.requests[id].lines[k].lien].remaining
  {
    hide Sound, Coupled, KeysAhead, PledgesSound, WithdrawalsSound, WindowSound;
    assert RequestSound(w.db.receipts, w.liens, w.requests[id]);
    forall k | 0 <= k < |w.requests[id].lines|
      ensures w.requests[id].lines[k].quantity > 0 && LineReleasable(w, w.requests[id].lines[k])
      ensures !w.liens[w.requests[id].lines[k].lien].forced
    {
      assert LineSound(w.db.receipts, w.liens, w.requests[id], w.requests[id].lines[k]);
      assert LienSound(w.liens[w.requests[id].lines[k].lien], w.requests, w.requests[id].lines[k].lien);
    }
  }

  lemma ApprovingRequestKeepsHealthy(w: World, a: Action)
    requires Healthy(w) && a.ApproveReleaseRequest? && GateOf(w, a).Proceed?
    ensures Perform(w, a).verdict.Done? && Healthy(Perform(w, a).world)
  {
    hide Perform, GateOf, Healthy, ApproveRequest, Releasable;
    ApprovalPasses(w, a);
    ApprovedKeepsHealthy(w, a.id);
  }

  lemma ApprovalPasses(w: World, a: Action)
    requires a.ApproveReleaseRequest? && GateOf(w, a).Proceed?
    ensures a.id < |w.requests| && w.requests[a.id].status.Pending? && Releasable(w, w.requests[a.id].lines)
    ensures Perform(w, a) == ApproveRequest(w, a.id)
  {
    hide Releasable, ApproveRequest;
  }

  lemma ApprovedKeepsHealthy(w: World, id: nat)
    requires Healthy(w) && id < |w.requests| && w.requests[id].status.Pending? && Releasable(w, w.requests[id].lines)
    ensures ApproveRequest(w, id).verdict.Done? && Healthy(ApproveRequest(w, id).world)
  {
    hide Sound, Coupled, LiensSound, RequestsSound, PledgesSound, WithdrawalsSound, WindowSound, KeysAhead, RowsAged,
         Approvable, ApproveRequest, LiensMoved, KeysSpent, TreesAside, Releasable;
    PendingIsApprovable(w, id);
    ApprovalIsAllOrNothing(w, id);
    var v := ApproveRequest(w, id).world;
    FitsAtApproval(w, id);
    ApprovalKeepsBooks(w, v, id);
    ApprovalKeysAhead(w, v, id);
    ApprovalRests(w, v, id);
  }

  // ----- Every action, every run -------------------------------------------

  /** New rows draw unused identifiers, a release request names distinct liens, the fee
      of a completed withdrawal can be computed, and the ledger's own desk keeps to its
      own calls and keys. */
  ghost predicate Admissible(w: World, a: Action) {
    && FreshId(w, a)
    && (a.CreateReleaseRequest? ==> DistinctInputs(a.inputs))
    && Priced(a)
    && (a.LedgerDesk? ==> DeskCall(w, a.call))
  }

  /** Status guards imply ledger guards: once past the check on its own row, every call
      that does not open a new hold succeeds. */
  lemma PassedGuardsSucceed(w: World, a: Action)
    requires Healthy(w) && Admissible(w, a) && GateOf(w, a).Proceed? && !Opens(a) && !a.LedgerDesk?
    ensures Perform(w, a).verdict.Done? && Healthy(Perform(w, a).world)
  {
    hide Healthy, CheckLines, TreeMass, AvailableForWithdrawal, Releasable;
    if ClaimOf(a).Some? {
      RowActionKeepsHealthy(w, a);
    } else if a.ApproveReleaseRequest? {
      ApprovingRequestKeepsHealthy(w, a);
    } else if a.CreateReleaseRequest? {
      RequestingKeepsHealthy(w, a);
    } else if a.CreateWithdrawal? {
      BookingKeepsHealthy(w, a);
    } else if a.CancelReleaseRequest? {
      DroppingRequestKeepsHealthy(w, a.id, RequestStatus.Cancelled);
    } else if a.RejectReleaseRequest? {
      DroppingRequestKeepsHealthy(w, a.id, RequestStatus.Rejected);
    } else if a.ExpirePendingPayments? {
      CleanupKeepsHealthy(w);
    } else if a.Tick? {
      TimeKeepsHealthy(w, a.ms);
    }
  }

  lemma DeskIsItsCall(w: World, a: Action)
    requires a.LedgerDesk?
    ensures Perform(w, a).world == w.(db := Invoke(w.db, a.call).db)
  {
    hide Invoke;
  }

  /** Every action keeps the invariant, whether it succeeds, is refused or throws. */
  lemma ActionKeepsHealthy(w: World, a: Action)
    requires Healthy(w) && Admissible(w, a)
    ensures Healthy(Perform(w, a).world)
  {
    hide Healthy, GateOf, DeskCall;
    if a.LedgerDesk? {
      DeskIsItsCall(w, a);
      DeskKeepsHealthy(w, a.call);
    } else if !GateOf(w, a).Proceed? {
    } else {
      hide Perform;
      if Opens(a) {
        OpensOrChangesNothing(w, a);
      } else {
        PassedGuardsSucceed(w, a);
      }
    }
  }

  /** What a service method promises about its tables beyond doing what its action does. */
  ghost predicate KeptHealthy(before: World, a: Action, after: World) {
    Healthy(before) && Admissible(before, a) ==> Healthy(after)
  }

  lemma ServiceKeepsHealthy(w: World, a: Action)
    ensures KeptHealthy(w, a, Perform(w, a).world)
  {
    hide Healthy, Admissible, Perform;
    if Healthy(w) && Admissible(w, a) {
      ActionKeepsHealthy(w, a);
    }
  }

  ghost predicate AdmissibleRun(actions: seq<Action>) {
    actions == []
    || (AdmissibleRun(actions[..|actions| - 1])
        && Admissible(RunActions(EMPTY_WORLD, actions[..|actions| - 1]), actions[|actions| - 1]))
  }

  lemma EmptyIsHealthy()
    ensures Healthy(EMPTY_WORLD)
  {
    EmptyIsSound();
  }

  lemma {:induction false} ReachableIsHealthy(actions: seq<Action>)
    requires AdmissibleRun(actions)
    ensures Healthy(RunActions(EMPTY_WORLD, actions))
  {
    hide Healthy, Perform, Admissible;
    if actions == [] {
      EmptyIsHealthy();
    } else {
      ReachableIsHealthy(actions[..|actions| - 1]);
      ActionKeepsHealthy(RunActions(EMPTY_WORLD, actions[..|actions| - 1]), actions[|actions| - 1]);
    }
  }

  /** Coupling: after any admissible run of service calls, a leaf is held exactly when
      some open row claims it, no two open rows claim one leaf, and the leaf has the
      kind, the quantity and the tenant of its row. */
  lemma ReachableCoupling(actions: seq<Action>, i: nat, c: Claim, d: Claim)
    requires AdmissibleRun(actions)
    ensures var w := RunActions(EMPTY_WORLD, actions);
            && (i < |w.db.receipts| ==>
                  (w.db.receipts[i].status in HELD
                   <==> exists e :: StakeOf(w, e).Some? && StakeOf(w, e).value.leaf == i))
            && (StakeOf(w, c).Some? ==>
                  && StakeOf(w, c).value.leaf < |w.db.receipts|
                  && var r := w.db.receipts[StakeOf(w, c).value.leaf];
                     r.status == StatusFor(c.kind) && r.quantity == StakeOf(w, c).value.quantity
                       && r.tenant == StakeOf(w, c).value.tenant)
            && (StakeOf(w, c).Some? && StakeOf(w, d).Some? && StakeOf(w, c).value.leaf == StakeOf(w, d).value.leaf
                ==> c == d)
  {
    hide RunActions, AdmissibleRun, StakeOf, Sound, KeysAhead, LiensSound, RequestsSound, PledgesSound,
         WithdrawalsSound, WindowSound, Claimed;
    ReachableIsHealthy(actions);
    var w := RunActions(EMPTY_WORLD, actions);
    if i < |w.db.receipts| {
      CouplingIsOneToOne(w, i, c, d);
    } else if StakeOf(w, c).Some? {
      assert Backs(w.db.receipts, c, StakeOf(w, c).value);
      CouplingIsOneToOne(w, StakeOf(w, c).value.leaf, c, d);
    }
    assert StakeOf(w, c).Some? ==> Backs(w.db.receipts, c, StakeOf(w, c).value);
  }

  /** Books of the liens: a lien never force-released accounts for all it was granted,
      and pending requests ask of a live lien at most what remains. */
  lemma ReachableLienBooks(actions: seq<Action>, id: nat)
    requires AdmissibleRun(actions)
    ensures var w := RunActions(EMPTY_WORLD, actions);
            id in w.liens ==>
              && (!w.liens[id].forced ==>
                    w.liens[id].quantity == w.liens[id].remaining + AskedOf(w.requests, RequestStatus.Approved, id))
              && (Live(w.liens[id]) ==> 0 <= AskedOf(w.requests, RequestStatus.Pending, id) <= w.liens[id].remaining)
  {
    ReachableIsHealthy(actions);
    var w := RunActions(EMPTY_WORLD, actions);
    hide RunActions, AdmissibleRun, Sound, Coupled, KeysAhead, RequestsSound, PledgesSound, WithdrawalsSound,
         WindowSound;
    if id in w.liens {
      assert LienSound(w.liens[id], w.requests, id);
      LinesArePositive(w);
      AskedNonnegative(w.requests, RequestStatus.Pending, id);
    }
  }

  /** Soft reservations: at every moment the unpaid withdrawals inside the window ask of
      a receipt at most its quantity, and no client has two of them. */
  lemma ReachableWindow(actions: seq<Action>, x: nat)
    requires AdmissibleRun(actions)
    ensures var w := RunActions(EMPTY_WORLD, actions);
            x < |w.db.receipts| ==>
              var tenant := w.db.receipts[x].tenant;
              && 0 <= AvailableForWithdrawal(w.withdrawals, w.now, tenant, x, w.db.receipts[x].quantity)
              && (forall i, j :: 0 <= i < j < |w.withdrawals| && Reserving(w.withdrawals[i], w.now, tenant, x)
                                 && Reserving(w.withdrawals[j], w.now, tenant, x)
                    ==> w.withdrawals[i].client != w.withdrawals[j].client)
  {
    hide RunActions, AdmissibleRun, Sound, Coupled, KeysAhead, RequestsSound, PledgesSound, WithdrawalsSound,
         LiensSound, Reserving;
    ReachableIsHealthy(actions);
  }

  // ----- Lines that repeat a lien ------------------------------------------

  /** Two lines of one request that each take all of a lien that is not asked for yet. */
  function TwiceAll(w: World, id: nat): Action
    requires id in w.liens
  {
    var left := w.liens[id].remaining - AskedOf(w.requests, RequestStatus.Pending, id);
    CreateReleaseRequest(w.liens[id].client, w.liens[id].financier, [LineInput(id, left), LineInput(id, left)])
  }

  function TwiceAllFiled(w: World, id: nat): Request
    requires id in w.liens
  {
    var lien := w.liens[id];
    var line := Line(id, lien.receipt, lien.remaining - AskedOf(w.requests, RequestStatus.Pending, id));
    Request(lien.client.tenant, lien.client, lien.financier, [line, line], RequestStatus.Pending)
  }

  lemma TwiceAllIsFiled(w: World, id: nat)
    requires id in w.liens && Live(w.liens[id])
    requires AskedOf(w.requests, RequestStatus.Pending, id) < w.liens[id].remaining
    ensures GateOf(w, TwiceAll(w, id)).Proceed?
    ensures Perform(w, TwiceAll(w, id)) == Served(w.(requests := w.requests + [TwiceAllFiled(w, id)]), Done)
  {
    hide AskedOf;
    var a := TwiceAll(w, id);
    assert CheckLine(w, a.caller, a.financier, a.inputs[0]).Proceed?;
    assert CheckLines(w, a.caller, a.financier, a.inputs).Proceed?;
    assert LinesOf(w, a.inputs) == TwiceAllFiled(w, id).lines;
    hide CheckLines;
  }

  /** The check made per line does not look at the other lines of the same request: two
      lines that each take all that is left of a lien are accepted, and together ask
      twice as much as there is. */
  lemma RepeatedLinesOvercommit(w: World, id: nat)
    requires Healthy(w) && id in w.liens && Live(w.liens[id])
    requires AskedOf(w.requests, RequestStatus.Pending, id) < w.liens[id].remaining
    ensures var a, left := TwiceAll(w, id), w.liens[id].remaining - AskedOf(w.requests, RequestStatus.Pending, id);
            && GateOf(w, a).Proceed? && Perform(w, a).verdict.Done?
            && AskedOf(Perform(w, a).world.requests, RequestStatus.Pending, id)
               == w.liens[id].remaining + left > w.liens[id].remaining
  {
    hide Healthy, GateOf, Perform;
    TwiceAllIsFiled(w, id);
    var r := TwiceAllFiled(w, id);
    AskedPush(w.requests, r, RequestStatus.Pending, id);
    assert r.lines[..1][..0] == [] && r.lines[..1] == [r.lines[0]];
    assert LineSum(r.lines[..1], id) == r.lines[0].quantity;
  }

  lemma TwiceAllIsApprovable(w: World, id: nat)
    requires Healthy(w) && id in w.liens && Live(w.liens[id])
    requires AskedOf(w.requests, RequestStatus.Pending, id) < w.liens[id].remaining
    ensures Approvable(w.(requests := w.requests + [TwiceAllFiled(w, id)]), |w.requests|)
  {
    hide Sound, RequestsSound, PledgesSound, WithdrawalsSound, WindowSound, KeyUsed, Coupled, AskedOf, StakeOf;
    var r, v, n := TwiceAllFiled(w, id), w.(requests := w.requests + [TwiceAllFiled(w, id)]), |w.requests|;
    assert Coupled(v) by { RequestsAreNoClaims(w, v); }
    assert LienSound(w.liens[id], w.requests, id);
    assert 0 <= AskedOf(w.requests, RequestStatus.Pending, id) by {
      LinesArePositive(w);
      AskedNonnegative(w.requests, RequestStatus.Pending, id);
    }
    forall k: nat | k < 2
      ensures LineReleasable(v, r.lines[k]) && LineIsReady(v, n, k)
    {
      assert MayUse(w, LineKey(FullWord, n, k)) && MayUse(w, LineKey(PartialWord, n, k));
    }
  }

  lemma RequestsAreNoClaims(w: World, v: World)
    requires Coupled(w) && v == w.(requests := v.requests)
    ensures Coupled(v)
  {
    assert forall c :: StakeOf(v, c) == StakeOf(w, c);
    forall i: nat | i < |v.db.receipts| && v.db.receipts[i].status in HELD
      ensures Claimed(v, i)
    {
      assert Claimed(w, i);
    }
    hide StakeOf;
  }

  /** Such a request passes the check at approval too, and its approval is refused by the
      ledger at the second line, with the first carried out. */
  lemma RepeatedLinesAreRefused(w: World, id: nat)
    requires Healthy(w) && id in w.liens && Live(w.liens[id])
    requires AskedOf(w.requests, RequestStatus.Pending, id) < w.liens[id].remaining
    ensures var v := Perform(w, TwiceAll(w, id)).world;
            var a := ApproveReleaseRequest(|w.requests|, w.liens[id].financier, true);
            && GateOf(v, a).Proceed? && Approvable(v, |w.requests|) && !DistinctLiens(v.requests[|w.requests|].lines)
            && Perform(v, a).verdict == Refused(LedgerRefused(InvalidTransition))
            && Perform(v, a).world.requests == v.requests && v.requests[|w.requests|].status.Pending?
  {
    hide Healthy, Approvable, Perform, GateOf, Releasable;
    TwiceAllIsFiled(w, id);
    TwiceAllIsApprovable(w, id);
    var v, n := w.(requests := w.requests + [TwiceAllFiled(w, id)]), |w.requests|;
    assert v.requests[n].lines[0].lien == v.requests[n].lines[1].lien;
    ApprovableIsReleasable(v, n);
    ApprovalSucceedsIffDistinct(v, n);
    ApproveProceeds(v, n, w.liens[id].financier);
  }

  lemma ApproveProceeds(v: World, n: nat, financier: string)
    requires n < |v.requests| && v.requests[n].financier == financier && v.requests[n].status.Pending?
    requires Releasable(v, v.requests[n].lines)
    ensures GateOf(v, ApproveReleaseRequest(n, financier, true)).Proceed?
    ensures Perform(v, ApproveReleaseRequest(n, financier, true)) == ApproveRequest(v, n)
  {
    hide Releasable, ReleaseLines;
  }
}
