/** The services over the ledger with rounding columns: the calls of `Services`, each
    ledger call rounding what it inserts. The service rows keep the caller's decimals. */
module DecimalServices {
  import opened InventoryTypes
  import opened ReceiptNumbers
  import opened Ledger
  import opened Tables
  import opened Services
  import opened Decimals

  function StoredReleaseLine(w: World, request: nat, k: nat, line: Line, lien: Lien, g: int): Served
    requires g > 0 && request < |w.requests|
  {
    var tenant := w.requests[request].tenant;
    if line.quantity == lien.remaining then
      var o := StoredInvoke(w.db, ReleaseOf(tenant, lien.receipt, LineKey(FullWord, request, k)), g);
      if o.reply.Err? then Served(w.(db := o.db), Refused(LedgerRefused(o.reply.error)))
      else if line.lien !in w.liens then Served(w.(db := o.db), Refused(NotFound))
      else Served(w.(db := o.db,
                     liens := w.liens[line.lien := w.liens[line.lien].(remaining := 0, status := LienStatus.Released)]),
                  Done)
    else
      var o := StoredInvoke(w.db, Call(tenant, LineKey(PartialWord, request, k),
                                       ReleasePartial(lien.receipt, line.quantity, Uuid(request))), g);
      if o.reply.Err? then Served(w.(db := o.db), Refused(LedgerRefused(o.reply.error)))
      else if line.lien !in w.liens || !o.reply.value.PartialReply? || o.reply.value.remainingHeld.None?
      then Served(w.(db := o.db), Refused(NotFound))
      else Served(w.(db := o.db,
                     liens := w.liens[line.lien := w.liens[line.lien].(
                       receipt := o.reply.value.remainingHeld.value,
                       remaining := lien.remaining - line.quantity,
                       status := PartiallyReleased)]), Done)
  }

  function StoredReleaseLines(w: World, snapshot: map<nat, Lien>, request: nat, n: nat, g: int): (s: Served)
    requires g > 0 && request < |w.requests| && n <= |w.requests[request].lines|
    requires forall k :: 0 <= k < |w.requests[request].lines| ==> w.requests[request].lines[k].lien in snapshot
    ensures s.world.requests == w.requests
  {
    if n == 0 then Served(w, Done)
    else
      var before := StoredReleaseLines(w, snapshot, request, n - 1, g);
      if before.verdict.Refused? then before
      else
        var line := w.requests[request].lines[n - 1];
        StoredReleaseLine(before.world, request, n - 1, line, snapshot[line.lien], g)
  }

  function StoredApproveRequest(w: World, request: nat, g: int): Served
    requires g > 0 && request < |w.requests| && Releasable(w, w.requests[request].lines)
  {
    var released := StoredReleaseLines(w, w.liens, request, |w.requests[request].lines|, g);
    if released.verdict.Refused? then released
    else Served(SetRequest(released.world, request, RequestStatus.Approved), Done)
  }

  function StoredPerform(w: World, a: Action, g: int): Served
    requires g > 0
  {
    var gate := GateOf(w, a);
    if gate.Stop? then Served(w, Refused(gate.why))
    else if gate.Nothing? then Served(w, Done)
    else if a.ApproveReleaseRequest? then StoredApproveRequest(w, a.id, g)
    else
      var call := LedgerCall(w, a);
      if call.None? then
        var done := Finish(w, w.db, a, Node(0));
        if done.Some? then Served(done.value, Done) else Served(w, Refused(Conflict))
      else
        var o := StoredInvoke(w.db, call.value, g);
        if o.reply.Err? then Served(w.(db := o.db), Refused(LedgerRefused(o.reply.error)))
        else
          var done := Finish(w, o.db, a, o.reply.value);
          if done.Some? then Served(done.value, Done) else Served(w.(db := o.db), Refused(Conflict))
  }

  function StoredRunActions(w: World, actions: seq<Action>, g: int): World
    requires g > 0
  {
    if actions == [] then w
    else StoredPerform(StoredRunActions(w, actions[..|actions| - 1], g), actions[|actions| - 1], g).world
  }

  // ----- Quantities the columns store exactly ------------------------------

  ghost predicate WholeLines(lines: seq<Line>, g: int)
    requires g > 0
  {
    forall k :: 0 <= k < |lines| ==> lines[k].quantity % g == 0
  }

  /** Every quantity a later ledger call can take from a service row. */
  ghost predicate WholeWorld(w: World, g: int)
    requires g > 0
  {
    && WholeRows(w.db.receipts, g)
    && (forall i :: 0 <= i < |w.withdrawals| ==> w.withdrawals[i].quantity % g == 0)
    && (forall i :: 0 <= i < |w.requests| ==> WholeLines(w.requests[i].lines, g))
  }

  /** The quantities a caller passes to a service. */
  ghost predicate WholeAction(a: Action, g: int)
    requires g > 0
  {
    match a
    case CreatePledge(_, _, _, _, quantity, _, _) => quantity % g == 0
    case CreateReleaseRequest(_, _, inputs) => forall k :: 0 <= k < |inputs| ==> inputs[k].quantity % g == 0
    case CreateWithdrawal(_, _, _, quantity, _, _) => quantity % g == 0
    case LedgerDesk(call) => WholeCall(call, g)
    case _ => true
  }

  lemma CallIsWhole(w: World, a: Action, g: int)
    requires g > 0 && WholeWorld(w, g) && WholeAction(a, g) && GateOf(w, a).Proceed? && LedgerCall(w, a).Some?
    ensures WholeCall(LedgerCall(w, a).value, g)
  {
    hide CheckLines, TreeMass, AvailableForWithdrawal;
  }

  predicate OfPledges(a: Action) {
    a.CreatePledge? || a.CancelPledge? || a.RejectPledge? || a.ExpirePledge? || a.AcceptPledge? || a.ForceReleaseLien?
  }

  lemma PledgesKeepRows(w: World, db: Db, a: Action, reply: Reply)
    requires GateOf(w, a).Proceed? && Finish(w, db, a, reply).Some? && OfPledges(a)
    ensures Finish(w, db, a, reply).value.db == db
  {
    hide CheckLines, TreeMass, AvailableForWithdrawal, Releasable;
  }

  lemma OthersKeepRows(w: World, db: Db, a: Action, reply: Reply)
    requires GateOf(w, a).Proceed? && Finish(w, db, a, reply).Some? && !OfPledges(a)
    ensures Finish(w, db, a, reply).value.db == db
  {
    hide CheckLines, TreeMass, AvailableForWithdrawal, Releasable;
  }

  lemma FinishKeepsRows(w: World, db: Db, a: Action, reply: Reply)
    requires GateOf(w, a).Proceed? && Finish(w, db, a, reply).Some?
    ensures Finish(w, db, a, reply).value.db == db
  {
    hide *;
    if OfPledges(a) {
      PledgesKeepRows(w, db, a, reply);
    } else {
      OthersKeepRows(w, db, a, reply);
    }
  }

  lemma FinishKeepsWithdrawals(w: World, db: Db, a: Action, reply: Reply)
    requires GateOf(w, a).Proceed? && Finish(w, db, a, reply).Some?
    ensures var before, after := w.withdrawals, Finish(w, db, a, reply).value.withdrawals;
            && |before| <= |after| <= |before| + 1
            && (forall i :: 0 <= i < |before| ==> after[i].quantity == before[i].quantity)
            && (|after| > |before| ==> a.CreateWithdrawal? && after[|before|].quantity == a.quantity)
  {
    hide CheckLines, TreeMass, AvailableForWithdrawal, Releasable;
  }

  lemma FinishKeepsRequests(w: World, db: Db, a: Action, reply: Reply)
    requires GateOf(w, a).Proceed? && Finish(w, db, a, reply).Some?
    ensures var before, after := w.requests, Finish(w, db, a, reply).value.requests;
            && |before| <= |after| <= |before| + 1
            && (forall i :: 0 <= i < |before| ==> after[i].lines == before[i].lines)
            && (|after| > |before| ==>
                  && a.CreateReleaseRequest? && |after[|before|].lines| == |a.inputs|
                  && forall k :: 0 <= k < |a.inputs| ==> after[|before|].lines[k].quantity == a.inputs[k].quantity)
  {
    hide TreeMass, AvailableForWithdrawal, Releasable;
  }

  lemma FinishIsWhole(w: World, db: Db, a: Action, reply: Reply, g: int)
    requires g > 0 && WholeWorld(w, g) && WholeAction(a, g) && GateOf(w, a).Proceed? && WholeRows(db.receipts, g)
    requires Finish(w, db, a, reply).Some?
    ensures WholeWorld(Finish(w, db, a, reply).value, g)
  {
    hide GateOf, Finish, WholeCall, WholeRows;
    FinishKeepsRows(w, db, a, reply);
    FinishKeepsWithdrawals(w, db, a, reply);
    FinishKeepsRequests(w, db, a, reply);
  }

  lemma LineIsExact(w: World, request: nat, k: nat, line: Line, lien: Lien, g: int)
    requires g > 0 && request < |w.requests| && WholeRows(w.db.receipts, g) && line.quantity % g == 0
    ensures StoredReleaseLine(w, request, k, line, lien, g) == ReleaseLine(w, request, k, line, lien)
    ensures WholeRows(ReleaseLine(w, request, k, line, lien).world.db.receipts, g)
  {
    hide Invoke, StoredInvoke;
    var tenant := w.requests[request].tenant;
    if line.quantity == lien.remaining {
      WholeCallIsExact(w.db, ReleaseOf(tenant, lien.receipt, LineKey(FullWord, request, k)), g);
    } else {
      WholeCallIsExact(w.db, Call(tenant, LineKey(PartialWord, request, k),
                                  ReleasePartial(lien.receipt, line.quantity, Uuid(request))), g);
    }
  }

  lemma {:induction false} LinesAreExact(w: World, snapshot: map<nat, Lien>, request: nat, n: nat, g: int)
    requires g > 0 && request < |w.requests| && n <= |w.requests[request].lines|
    requires forall k :: 0 <= k < |w.requests[request].lines| ==> w.requests[request].lines[k].lien in snapshot
    requires WholeRows(w.db.receipts, g) && WholeLines(w.requests[request].lines, g)
    ensures StoredReleaseLines(w, snapshot, request, n, g) == ReleaseLines(w, snapshot, request, n)
    ensures WholeRows(ReleaseLines(w, snapshot, request, n).world.db.receipts, g)
    ensures ReleaseLines(w, snapshot, request, n).world.withdrawals == w.withdrawals
  {
    hide ReleaseLine, StoredReleaseLine;
    if n > 0 {
      LinesAreExact(w, snapshot, request, n - 1, g);
      var before, line := ReleaseLines(w, snapshot, request, n - 1), w.requests[request].lines[n - 1];
      LineIsExact(before.world, request, n - 1, line, snapshot[line.lien], g);
      LineLeavesWithdrawals(before.world, request, n - 1, line, snapshot[line.lien]);
    }
  }

  lemma LineLeavesWithdrawals(w: World, request: nat, k: nat, line: Line, lien: Lien)
    requires request < |w.requests|
    ensures ReleaseLine(w, request, k, line, lien).world.withdrawals == w.withdrawals
  {
    hide Invoke;
  }

  lemma ApprovalIsExact(w: World, a: Action, g: int)
    requires g > 0 && WholeWorld(w, g) && a.ApproveReleaseRequest? && GateOf(w, a).Proceed?
    ensures StoredPerform(w, a, g) == Perform(w, a) && WholeWorld(Perform(w, a).world, g)
  {
    assert Releasable(w, w.requests[a.id].lines);
    hide Releasable, ReleaseLines, StoredReleaseLines, WholeRows, WholeLines;
    ReleasableLiens(w, w.requests[a.id].lines);
    LinesAreExact(w, w.liens, a.id, |w.requests[a.id].lines|, g);
  }

  lemma ReleasableLiens(w: World, lines: seq<Line>)
    requires Releasable(w, lines)
    ensures forall k :: 0 <= k < |lines| ==> lines[k].lien in w.liens
  {
    forall k | 0 <= k < |lines|
      ensures lines[k].lien in w.liens
    {
      assert LineReleasable(w, lines[k]);
    }
  }

  lemma RowAloneIsExact(w: World, a: Action, g: int)
    requires g > 0 && WholeWorld(w, g) && WholeAction(a, g)
    requires GateOf(w, a).Proceed? && !a.ApproveReleaseRequest? && LedgerCall(w, a).None?
    ensures StoredPerform(w, a, g) == Perform(w, a) && WholeWorld(Perform(w, a).world, g)
  {
    hide GateOf, LedgerCall, Finish, WholeAction;
    if Finish(w, w.db, a, Node(0)).Some? {
      FinishIsWhole(w, w.db, a, Node(0), g);
    }
  }

  lemma LedgerActionIsExact(w: World, a: Action, g: int)
    requires g > 0 && WholeWorld(w, g) && WholeAction(a, g)
    requires GateOf(w, a).Proceed? && !a.ApproveReleaseRequest? && LedgerCall(w, a).Some?
    ensures StoredPerform(w, a, g) == Perform(w, a) && WholeWorld(Perform(w, a).world, g)
  {
    hide GateOf, LedgerCall, Finish, Invoke, StoredInvoke, WholeAction, WholeWorld;
    RowsAreWhole(w, g);
    CallIsWhole(w, a, g);
    WholeCallIsExact(w.db, LedgerCall(w, a).value, g);
    var o := Invoke(w.db, LedgerCall(w, a).value);
    if o.reply.Ok? && Finish(w, o.db, a, o.reply.value).Some? {
      FinishIsWhole(w, o.db, a, o.reply.value, g);
    } else {
      RefusedIsWhole(w, o.db, g);
    }
  }

  lemma RowsAreWhole(w: World, g: int)
    requires g > 0 && WholeWorld(w, g)
    ensures WholeRows(w.db.receipts, g)
  {
  }

  lemma RefusedIsWhole(w: World, db: Db, g: int)
    requires g > 0 && WholeWorld(w, g) && WholeRows(db.receipts, g)
    ensures WholeWorld(w.(db := db), g)
  {
    hide WholeRows, WholeLines;
  }

  /** With quantities that are multiples of the grain, a service over rounding columns
      does what it does over exact ones. */
  lemma WholeActionIsExact(w: World, a: Action, g: int)
    requires g > 0 && WholeWorld(w, g) && WholeAction(a, g)
    ensures StoredPerform(w, a, g) == Perform(w, a) && WholeWorld(Perform(w, a).world, g)
  {
    hide GateOf, Finish, WholeAction, WholeWorld, ReleaseLines, StoredReleaseLines, Invoke, StoredInvoke, LedgerCall;
    if GateOf(w, a).Proceed? {
      if a.ApproveReleaseRequest? {
        ApprovalIsExact(w, a, g);
      } else if LedgerCall(w, a).None? {
        RowAloneIsExact(w, a, g);
      } else {
        LedgerActionIsExact(w, a, g);
      }
    }
  }

  /** Every run of such calls: what is proved of `RunActions` holds of it. */
  lemma {:induction false} WholeActionsAreExact(actions: seq<Action>, g: int)
    requires g > 0 && forall k :: 0 <= k < |actions| ==> WholeAction(actions[k], g)
    ensures StoredRunActions(EMPTY_WORLD, actions, g) == RunActions(EMPTY_WORLD, actions)
    ensures WholeWorld(RunActions(EMPTY_WORLD, actions), g)
  {
    hide Perform, StoredPerform, WholeAction;
    if actions != [] {
      WholeActionsAreExact(actions[..|actions| - 1], g);
      WholeActionIsExact(RunActions(EMPTY_WORLD, actions[..|actions| - 1]), actions[|actions| - 1], g);
    }
  }

  // ----- Any quantities -----------------------------------------------------

  lemma HoldParts(db: Db, call: Call)
    requires call.op.Hold? && Plan(db, call).Ok?
    ensures call.op.receipt < |db.receipts| && Plan(db, call).value.change.Split?
    ensures var src, change, q := db.receipts[call.op.receipt], Plan(db, call).value.change, call.op.quantity;
            && change.at == call.op.receipt && 0 < q <= src.quantity && 1 <= |change.kids| <= 2
            && (|change.kids| == 2 <==> q < src.quantity)
            && change.kids[0].quantity == q && change.kids[0].status == call.op.heldStatus
            && (|change.kids| == 2 ==> change.kids[1].quantity == src.quantity - q && change.kids[1].status == ACTIVE)
    ensures FreshReply(db, call.op).HoldReply? && FreshReply(db, call.op).held == Some(|db.receipts|)
  {
    hide SplitSuffixes, ChildNumber, BaseReceiptNumber, KeyUsed;
  }

  /** What a hold stores: its leaf is rounded, and so is the remainder. Leaf and row agree
      exactly if the quantity is a multiple of the grain; leaf and remainder weigh what
      was split exactly if it did not leave half a grain over. */
  lemma HoldStores(db: Db, call: Call, g: int)
    requires g > 0 && WholeRows(db.receipts, g) && call.op.Hold? && Plan(db, call).Ok? && !KeyUsed(db.events, call.key)
    ensures call.op.receipt < |db.receipts|
    ensures var after, n := StoredInvoke(db, call, g).db.receipts, |db.receipts|;
            var src := db.receipts[call.op.receipt].quantity;
            && StoredInvoke(db, call, g).reply.Ok? && StoredInvoke(db, call, g).reply.value == FreshReply(db, call.op)
            && n < |after| && after[n].quantity == Stored(call.op.quantity, g)
            && after[n].status == call.op.heldStatus
            && (after[n].quantity == call.op.quantity <==> call.op.quantity % g == 0)
            && (call.op.quantity < src ==>
                  && n + 1 < |after| && after[n + 1].quantity == Stored(src - call.op.quantity, g)
                  && (after[n].quantity + after[n + 1].quantity == src <==> !IsHalf(call.op.quantity, g)))
  {
    hide Plan, Stored, KeyUsed, StoredInvoke, FreshReply;
    HoldParts(db, call);
    var src := db.receipts[call.op.receipt].quantity;
    StoredCallCommits(db, call, g);
    SplitStores(src, call.op.quantity, g);
    StoredIsNearest(call.op.quantity, g);
  }

  /** A pledge over rounding columns: its row keeps the caller's quantity and its leaf the
      rounded one, and the two agree exactly if that quantity is a multiple of the grain. */
  lemma PledgeAgreesIffWhole(w: World, a: Action, g: int)
    requires g > 0 && WholeRows(w.db.receipts, g) && a.CreatePledge? && GateOf(w, a).Proceed? && a.id !in w.pledges
    requires Plan(w.db, LedgerCall(w, a).value).Ok? && !KeyUsed(w.db.events, PledgeKey(CreateWord, a.id))
    ensures a.receipt < |w.db.receipts| && StoredPerform(w, a, g).verdict.Done?
    ensures var v, n, src := StoredPerform(w, a, g).world, |w.db.receipts|, w.db.receipts[a.receipt].quantity;
            && a.id in v.pledges && v.pledges[a.id].quantity == a.quantity && v.pledges[a.id].held == Some(n)
            && n < |v.db.receipts| && v.db.receipts[n].quantity == Stored(a.quantity, g)
            && (v.db.receipts[n].quantity == v.pledges[a.id].quantity <==> a.quantity % g == 0)
            && (a.quantity < src ==>
                  && n + 1 < |v.db.receipts|
                  && (v.db.receipts[n].quantity + v.db.receipts[n + 1].quantity == src <==> !IsHalf(a.quantity, g)))
  {
    hide Plan, Stored, KeyUsed, StoredInvoke, StoredPerform, GateOf, LedgerCall, IsHalf, FreshReply;
    PledgeCalls(w, a);
    var call := LedgerCall(w, a).value;
    HoldStores(w.db, call, g);
    HoldParts(w.db, call);
    PledgeWrites(w, a, g);
  }

  lemma PledgeCalls(w: World, a: Action)
    requires a.CreatePledge? && GateOf(w, a).Proceed?
    ensures LedgerCall(w, a) == Some(Call(a.caller.tenant, PledgeKey(CreateWord, a.id),
                                          Hold(a.receipt, a.quantity, HELD_PLEDGE_PENDING, PLEDGE, Uuid(a.id))))
  {
    hide TreeMass;
  }

  lemma PledgeWrites(w: World, a: Action, g: int)
    requires g > 0 && a.CreatePledge? && GateOf(w, a).Proceed? && a.id !in w.pledges && LedgerCall(w, a).Some?
    requires StoredInvoke(w.db, LedgerCall(w, a).value, g).reply.Ok?
    requires HeldOf(StoredInvoke(w.db, LedgerCall(w, a).value, g).reply.value).Some?
    ensures var s, o := StoredPerform(w, a, g), StoredInvoke(w.db, LedgerCall(w, a).value, g);
            && s.verdict.Done? && s.world.db == o.db && a.id in s.world.pledges
            && s.world.pledges[a.id].quantity == a.quantity && s.world.pledges[a.id].held == HeldOf(o.reply.value)
  {
    hide TreeMass, StoredInvoke, HeldOf;
  }
}
