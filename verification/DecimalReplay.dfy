/** Replaying the log of a tree over rounding columns: how far it is from the tree, for
    any quantities, bucket by bucket. */
module DecimalReplay {
  import opened InventoryTypes
  import opened ReceiptNumbers
  import opened Ledger
  import opened LedgerInvariant
  import opened Totals
  import opened Replay
  import opened Decimals

  /** Where a split with half a grain over is not told by its event: the event carries the
      rounded part it names, and the part left behind is rounded up as well. */
  function LeftBehind(op: Op): Option<Bucket> {
    match op
    case Hold(_, _, _, _, _) => Some(Available)
    case ReleasePartial(_, _, _) => Some(Held)
    case Seize(_, _, _) => Some(SeizedAway)
    case _ => None
  }

  /** The splits of tree `t` whose half grain is missing from bucket `b` of the log. */
  function Untold(t: nat, b: Bucket): (Receipt, Op) -> bool {
    (r: Receipt, op: Op) => r.root == t && LeftBehind(op) == Some(b)
  }

  // ----- One call ----------------------------------------------------------

  /** How a stored event splits a source row into its kids, `extra` heavier than it. */
  ghost predicate DescribesStoredSplit(ev: Event, src: Receipt, kids: seq<Receipt>, op: Op, extra: int) {
    && 1 <= |kids| <= 2
    && ev.root == src.root == kids[0].root && (|kids| == 2 ==> kids[1].root == src.root)
    && src.quantity + extra == kids[0].quantity + (if |kids| == 2 then kids[1].quantity else 0)
    && match ev.kind
       case HoldPlaced =>
         && op.Hold? && src.status == ACTIVE && kids[0].status in HELD && kids[0].quantity == ev.quantity
         && (|kids| == 2 ==> kids[1].status == ACTIVE)
       case HoldReleased =>
         && op.ReleasePartial? && src.status == HELD_LIEN && kids[0].status == ACTIVE && kids[0].quantity == ev.quantity
         && |kids| == 2 && kids[1].status == HELD_LIEN
       case Seized =>
         && op.Seize? && src.status == HELD_LOAN && kids[0].status == ReceiptStatus.SEIZED
         && ev.quantity == src.quantity
         && |kids| == 2 && kids[1].status == ACTIVE
         && kids[0].txnType.Some? && kids[1].txnType.None?
       case _ => false
  }

  lemma StoredSplitIsSaid(ev: Event, src: Receipt, kids: seq<Receipt>, op: Op, extra: int, t: nat, b: Bucket)
    requires DescribesStoredSplit(ev, src, kids, op, extra)
    ensures (if ev.root == t then Says(ev, b) else 0)
         == BucketShare(t, b)(Superseded(src)) - BucketShare(t, b)(src) + BucketShare(t, b)(kids[0])
            + (if |kids| == 2 then BucketShare(t, b)(kids[1]) else 0)
            + Overstated(b, if ev.kind == EventKind.Seized && |kids| == 2 && ev.root == t then kids[1].quantity else 0)
            - (if Untold(t, b)(src, op) then extra else 0)
  {
  }

  lemma SplitOp(db: Db, call: Call)
    requires Plan(db, call).Ok? && Plan(db, call).value.change.Split?
    ensures !call.op.Deposit? && Plan(db, call).value.change.at == call.op.receipt < |db.receipts|
    ensures var ev, src := Plan(db, call).value.events, db.receipts[call.op.receipt];
            && |ev| == 1
            && (call.op.Hold? ==> ev[0].kind == HoldPlaced && ev[0].quantity == call.op.quantity)
            && (call.op.ReleasePartial? ==> ev[0].kind == HoldReleased && ev[0].quantity == call.op.quantity)
            && (call.op.Seize? ==> ev[0].kind == EventKind.Seized && call.op.partial.Some?)
            && (call.op.Hold? || call.op.ReleasePartial? || call.op.Seize?)
            && Plan(db, call).value.change.kids != []
            && Plan(db, call).value.change.kids[0].quantity == AskedQuantity(call.op)
  {
    hide SplitSuffixes, ChildNumber, BaseReceiptNumber, KeyUsed;
  }

  lemma StoredSplitIsDescribed(db: Db, call: Call, g: int)
    requires g > 0 && Rounded(db.receipts, g) && Plan(db, call).Ok? && Plan(db, call).value.change.Split?
    ensures var w := Plan(db, call).value;
            && w.change.at == call.op.receipt < |db.receipts| && |w.events| == 1 && !call.op.Deposit?
            && DescribesStoredSplit(StoredEvents(w.events, g)[0], db.receipts[w.change.at],
                                    StoredRows(w.change.kids, g), call.op,
                                    if IsHalf(AskedQuantity(call.op), g) then g else 0)
  {
    hide Plan, Stored, IsHalf, Rounds;
    SplitOp(db, call);
    SplitIsDescribed(db, call);
    PlanRounds(db, call, g);
    var w := Plan(db, call).value;
    StoredSum(db.receipts, w.change, g, IsHalf(AskedQuantity(call.op), g));
    StoredIsNearest(db.receipts[w.change.at].quantity, g);
  }

  lemma RewriteIsStored(db: Db, call: Call, g: int)
    requires g > 0 && Rounded(db.receipts, g) && Lineage(db.receipts) && StatusRules(db.receipts)
    requires Plan(db, call).Ok? && Plan(db, call).value.change.Rewrite?
    ensures StoredEvents(Plan(db, call).value.events, g) == Plan(db, call).value.events
  {
    hide Stored;
    RewriteEvents(db, call);
    var events := Plan(db, call).value.events;
    forall e | 0 <= e < |events|
      ensures StoredEvents(events, g)[e] == events[e]
    {
      StoredIsNearest(events[e].quantity, g);
    }
  }

  lemma RewriteEvents(db: Db, call: Call)
    requires Plan(db, call).Ok? && Plan(db, call).value.change.Rewrite?
    ensures !call.op.Deposit? && call.op.receipt < |db.receipts|
    ensures forall e :: 0 <= e < |Plan(db, call).value.events| ==>
              Plan(db, call).value.events[e].quantity == db.receipts[call.op.receipt].quantity
  {
    hide SplitSuffixes, Child, Partition, KeyUsed, WithRelease;
  }

  /** The writes of a call as they are stored. */
  function StoredWrites(w: Writes, g: int): Writes
    requires g > 0
  {
    Writes(StoredEvents(w.events, g), StoredChange(w.change, g))
  }

  lemma StoredMintIsSaid(db: Db, call: Call, g: int, t: nat, b: Bucket)
    requires g > 0 && Plan(db, call).Ok? && Plan(db, call).value.change.Mint?
    ensures var w := StoredWrites(Plan(db, call).value, g);
            PlanSays(w.events, t, b) == Shift(db.receipts, w.change, BucketShare(t, b))
  {
    hide Stored;
    assert call.op.Deposit?;
  }

  /** What the stored writes say of a bucket, against what they move. */
  ghost predicate SaysShort(db: Db, w: Writes, t: nat, b: Bucket, short: int) {
    PlanSays(w.events, t, b) == Shift(db.receipts, w.change, BucketShare(t, b)) + Overstated(b, PlanHandsBack(w, t))
      - short
  }

  lemma StoredSplitSays(db: Db, call: Call, g: int, t: nat, b: Bucket)
    requires g > 0 && Rounded(db.receipts, g) && Plan(db, call).Ok? && Plan(db, call).value.change.Split?
    ensures !call.op.Deposit? && call.op.receipt < |db.receipts|
    ensures SaysShort(db, StoredWrites(Plan(db, call).value, g), t, b,
                      if IsHalf(AskedQuantity(call.op), g) && Untold(t, b)(db.receipts[call.op.receipt], call.op) then g
                        else 0)
  {
    hide Plan, BucketShare, Stored, IsHalf, Untold, Rounded, Says, Overstated;
    var w := Plan(db, call).value;
    StoredSplitIsDescribed(db, call, g);
    StoredSplitIsSaid(StoredEvents(w.events, g)[0], db.receipts[w.change.at], StoredRows(w.change.kids, g), call.op,
                      if IsHalf(AskedQuantity(call.op), g) then g else 0, t, b);
  }

  lemma StoredRewriteSays(db: Db, call: Call, g: int, t: nat, b: Bucket)
    requires g > 0 && Rounded(db.receipts, g) && Framed(db) && Plan(db, call).Ok? && Plan(db,
                                                                                          call).value.change.Rewrite?
    ensures SaysShort(db, StoredWrites(Plan(db, call).value, g), t, b, 0)
  {
    hide Plan, BucketShare, Describes, Stored, StatusRules, Lineage, Sourced, Rounded;
    var w := Plan(db, call).value;
    RewriteIsDescribed(db, call);
    RewriteIsStored(db, call, g);
    DescribedMoveIsSaid(w.events[|w.events| - 1], db.receipts[w.change.at], w.change.row, t, b);
  }

  lemma StoredPlanSays(db: Db, call: Call, g: int, t: nat, b: Bucket)
    requires g > 0 && Rounded(db.receipts, g) && Framed(db) && Commits(db, call, g)
    ensures Plan(db, call).Ok?
    ensures SaysShort(db, StoredWrites(Plan(db, call).value, g), t, b,
                      if HalfSplit(db, call, g, Untold(t, b)) then g else 0)
  {
    hide Plan, Framed, Rounded, SaysShort, StoredWrites, Commits, IsHalf, Untold;
    StoredCallWrites(db, call, g);
    var w := Plan(db, call).value;
    if w.change.Split? {
      StoredSplitSays(db, call, g, t, b);
    } else if w.change.Rewrite? {
      StoredRewriteSays(db, call, g, t, b);
    } else {
      StoredMintIsSaid(db, call, g, t, b);
      assert SaysShort(db, StoredWrites(w, g), t, b, 0) by { MintHandsNothingBack(db, w, g, t, b); }
    }
  }

  lemma MintHandsNothingBack(db: Db, w: Writes, g: int, t: nat, b: Bucket)
    requires g > 0 && w.change.Mint?
    requires PlanSays(StoredWrites(w, g).events, t, b)
         == Shift(db.receipts, StoredWrites(w, g).change, BucketShare(t, b))
    ensures SaysShort(db, StoredWrites(w, g), t, b, 0)
  {
    hide PlanSays, Shift;
  }

  // ----- What is handed back -----------------------------------------------

  /** New rows are minted by the next event. */
  ghost predicate FromNextEvent(db: Db, w: Writes) {
    && 1 <= |w.events| <= 2
    && match w.change
       case Mint(row) => row.parent.None?
       case Rewrite(at, row) =>
         && at < |db.receipts|
         && row == db.receipts[at].(status := row.status, approval := row.approval, client := row.client)
       case Split(at, kids) =>
         && at < |db.receipts| && 1 <= |kids| <= 2 && |w.events| == 1
         && (forall k :: 0 <= k < |kids| ==>
               kids[k].parent.Some? && kids[k].sourceEvent == Some(|db.events|) && kids[k].root == db.receipts[at].root)
         && (w.events[0].kind == EventKind.Seized ==> |kids| == 2 && kids[0].txnType.Some? && kids[1].txnType.None?)
  }

  lemma StoredIsFromNextEvent(db: Db, call: Call, g: int)
    requires g > 0 && Rounded(db.receipts, g) && Framed(db) && Commits(db, call, g)
    ensures Plan(db, call).Ok? && FromNextEvent(db, StoredWrites(Plan(db, call).value, g))
  {
    hide Plan, Rounded, Lineage, StatusRules, Sourced, Commits, Stored, LawfulNumbers, Rank, RowRules, SameLineage,
         Collides, IsHalf, Follows;
    StoredCallWrites(db, call, g);
    CommittedIsAdmitted(db, call, g);
    PlanIsLawful(db, call);
    if Plan(db, call).value.change.Split? {
      StoredSplitIsDescribed(db, call, g);
    }
  }

  lemma StoredHandsBackShifts(db: Db, w: Writes, t: nat)
    requires FromNextEvent(db, w)
    ensures Shift(db.receipts, w.change, HandedBackShare(db.events + w.events, t)) == PlanHandsBack(w, t)
  {
    assert (db.events + w.events)[|db.events|] == w.events[0];
  }

  lemma StoredHandedBackMoves(db: Db, w: Writes, t: nat)
    requires Sourced(db) && FromNextEvent(db, w)
    ensures HandedBackMass(Db(Changed(db.receipts, w.change), db.events + w.events), t)
         == HandedBackMass(db, t) + PlanHandsBack(w, t)
  {
    var before, after := HandedBackShare(db.events, t), HandedBackShare(db.events + w.events, t);
    StoredHandsBackShifts(db, w, t);
    TotalShifts(db.receipts, w.change, after);
    forall r | r in db.receipts
      ensures before(r) == after(r)
    {
      var i: nat :| i < |db.receipts| && db.receipts[i] == r;
      assert SourcedAt(db, i);
    }
    TotalAgree(db.receipts, before, after);
  }

  // ----- Whole runs --------------------------------------------------------

  /** The log of a tree against the tree, with `n` half grains untold in bucket `b`. */
  ghost predicate LogFalls(db: Db, g: int, t: nat, b: Bucket, n: nat) {
    Replayed(db.events, t, b) == InTree(db.receipts, t, b) + Overstated(b, HandedBackMass(db, t)) - g * n
  }

  lemma LogFallsAdds(db: Db, after: Db, w: Writes, g: int, t: nat, b: Bucket, n: nat, half: bool)
    requires LogFalls(db, g, t, b, n) && SaysShort(db, w, t, b, if half then g else 0)
    requires after == Db(Changed(db.receipts, w.change), db.events + w.events)
    requires Replayed(after.events, t, b) == Replayed(db.events, t, b) + PlanSays(w.events, t, b)
    requires Total(after.receipts, BucketShare(t, b))
          == Total(db.receipts, BucketShare(t, b)) + Shift(db.receipts, w.change, BucketShare(t, b))
    requires HandedBackMass(after, t) == HandedBackMass(db, t) + PlanHandsBack(w, t)
    ensures LogFalls(after, g, t, b, n + (if half then 1 else 0))
  {
    hide Replayed, PlanSays, Shift, BucketShare, Total, HandedBackMass, PlanHandsBack, Overstated, Changed;
    OverstatedAdds(b, HandedBackMass(db, t), PlanHandsBack(w, t));
    assert g * (n + 1) == g * n + g;
  }

  lemma CallFalls(db: Db, call: Call, g: int, t: nat, b: Bucket, n: nat)
    requires g > 0 && Rounded(db.receipts, g) && Framed(db) && LogFalls(db, g, t, b, n)
    ensures LogFalls(StoredInvoke(db, call, g).db, g, t, b, n + (if HalfSplit(db, call, g, Untold(t, b)) then 1 else 0))
  {
    hide Plan, Commits, StoredInvoke, Rounded, Lineage, StatusRules, Sourced, LogFalls, SaysShort, Collides,
         FromNextEvent, Untold, IsHalf, BucketShare, StoredChange, StoredEvents;
    StoredCallWrites(db, call, g);
    if Commits(db, call, g) {
      var w, after := StoredWrites(Plan(db, call).value, g), StoredInvoke(db, call, g).db;
      StoredPlanSays(db, call, g, t, b);
      StoredIsFromNextEvent(db, call, g);
      WritesFit(db, w);
      StoredHandedBackMoves(db, w, t);
      ReplayPlan(db.events, w.events, t, b);
      TotalShifts(db.receipts, w.change, BucketShare(t, b));
      LogFallsAdds(db, after, w, g, t, b, n, HalfSplit(db, call, g, Untold(t, b)));
    }
  }

  lemma WritesFit(db: Db, w: Writes)
    requires FromNextEvent(db, w)
    ensures 1 <= |w.events| <= 2 && (w.change.Split? ==> 1 <= |w.change.kids| <= 2)
    ensures !w.change.Mint? ==> w.change.at < |db.receipts|
  {
  }

  lemma {:induction false} RunFalls(calls: seq<Call>, g: int, t: nat, b: Bucket)
    requires g > 0
    ensures LogFalls(StoredRun(EMPTY_DB, calls, g), g, t, b, HalfSplits(calls, g, Untold(t, b)))
  {
    hide StoredInvoke, HalfSplit, Untold, Framed, Rounded;
    if calls != [] {
      var before := calls[..|calls| - 1];
      RunFalls(before, g, t, b);
      StoredRunIsFramed(before, g);
      RunIsRounded(before, g);
      hide LogFalls;
      CallFalls(StoredRun(EMPTY_DB, before, g), calls[|calls| - 1], g, t, b, HalfSplits(before, g, Untold(t, b)));
    }
  }

  lemma HandedBackIsNotNegative(db: Db, g: int, t: nat)
    requires g > 0 && Rounded(db.receipts, g)
    ensures HandedBackMass(db, t) >= 0
  {
    hide HandedBack;
    forall r | r in db.receipts
      ensures r.quantity >= 0
    {
      var i: nat :| i < |db.receipts| && db.receipts[i] == r;
    }
    TotalNonnegative(db.receipts, HandedBackShare(db.events, t));
  }

  /** Replay against state, for any quantities: after any run, the log of a tree falls
      short of the tree by a grain for every hold (in the available mass), every partial
      release (in the held mass) and every partial seizure (in the seized mass) that left
      half a grain over, besides what partial seizures handed back. All masses agree if
      and only if there was nothing of either. */
  lemma ReplayAgreesIffNothingUntold(calls: seq<Call>, g: int, t: nat)
    requires g > 0
    ensures var db := StoredRun(EMPTY_DB, calls, g);
            && (forall b :: Replayed(db.events, t, b)
                            == InTree(db.receipts, t, b) + Overstated(b, HandedBackMass(db, t))
                               - g * HalfSplits(calls, g, Untold(t, b)))
            && ((forall b :: Replayed(db.events, t, b) == InTree(db.receipts, t, b))
                <==> && HandedBackMass(db, t) == 0
                     && HalfSplits(calls, g, Untold(t, Available)) == 0
                     && HalfSplits(calls, g, Untold(t, Held)) == 0
                     && HalfSplits(calls, g, Untold(t, SeizedAway)) == 0)
  {
    hide StoredRun, Replayed, InTree, HandedBackMass, HalfSplits, Untold, Rounded;
    var db := StoredRun(EMPTY_DB, calls, g);
    forall b
      ensures LogFalls(db, g, t, b, HalfSplits(calls, g, Untold(t, b)))
      ensures HalfSplits(calls, g, Untold(t, b)) > 0 ==> g * HalfSplits(calls, g, Untold(t, b)) >= g
      ensures b !in {Available, Held, SeizedAway} ==> HalfSplits(calls, g, Untold(t, b)) == 0
    {
      RunFalls(calls, g, t, b);
      Scaled(HalfSplits(calls, g, Untold(t, b)), g);
      if b !in {Available, Held, SeizedAway} {
        NothingUntold(calls, g, t, b);
      }
    }
    RunIsRounded(calls, g);
    HandedBackIsNotNegative(db, g, t);
    assert LogFalls(db, g, t, Available, HalfSplits(calls, g, Untold(t, Available)));
    assert LogFalls(db, g, t, Held, HalfSplits(calls, g, Untold(t, Held)));
    assert LogFalls(db, g, t, SeizedAway, HalfSplits(calls, g, Untold(t, SeizedAway)));
  }

  lemma {:induction false} NothingUntold(calls: seq<Call>, g: int, t: nat, b: Bucket)
    requires g > 0 && b !in {Available, Held, SeizedAway}
    ensures HalfSplits(calls, g, Untold(t, b)) == 0
  {
    hide Commits, StoredRun;
    if calls != [] {
      NothingUntold(calls[..|calls| - 1], g, t, b);
    }
  }
}
