/** Replaying the event log of a tree and looking at the tree agree about how much
    stock is where (src/inventory/inventory-ledger.service.ts). */
module Replay {
  import opened InventoryTypes
  import opened ReceiptNumbers
  import opened Forest
  import opened Sequences
  import opened Ledger
  import opened LedgerInvariant
  import opened Totals

  datatype Bucket = Awaiting | Available | Held | Withdrawn | SeizedAway | Lapsed | Refused

  function BucketOf(s: ReceiptStatus): Option<Bucket> {
    if s == PENDING_APPROVAL then Some(Awaiting)
    else if s == ACTIVE then Some(Available)
    else if s in HELD then Some(Held)
    else if s == WITHDRAWN then Some(Withdrawn)
    else if s == ReceiptStatus.SEIZED then Some(SeizedAway)
    else if s == ReceiptStatus.EXPIRED then Some(Lapsed)
    else if s == CANCELLED then Some(Refused)
    else None
  }

  /** Leaf mass of tree `t` in a bucket. */
  function BucketShare(t: nat, b: Bucket): Receipt -> int {
    (r: Receipt) => if r.root == t && BucketOf(r.status) == Some(b) then r.quantity else 0
  }

  function InTree(receipts: seq<Receipt>, t: nat, b: Bucket): int {
    Total(receipts, BucketShare(t, b))
  }

  function Moves(from: Bucket, to: Bucket, quantity: int, b: Bucket): int {
    (if b == to then quantity else 0) - (if b == from then quantity else 0)
  }

  /** What one event says about a bucket, read from the event alone. */
  function Says(ev: Event, b: Bucket): int {
    match ev.kind
    case Deposited => if b == Awaiting then ev.quantity else 0
    case Approved => if ev.from == ev.root then Moves(Awaiting, Available, ev.quantity, b) else 0
    case Rejected => Moves(Awaiting, Refused, ev.quantity, b)
    case HoldPlaced => Moves(Available, Held, ev.quantity, b)
    case HoldReleased => Moves(Held, Available, ev.quantity, b)
    case Consumed => Moves(Held, Withdrawn, ev.quantity, b)
    case Seized => Moves(Held, SeizedAway, ev.quantity, b)
    case Expired => Moves(Available, Lapsed, ev.quantity, b)
    case _ => 0
  }

  /** The log of tree `t`, replayed in order. */
  function Replayed(events: seq<Event>, t: nat, b: Bucket): int {
    if events == [] then 0
    else
      var ev := events[|events| - 1];
      Replayed(events[..|events| - 1], t, b) + (if ev.root == t then Says(ev, b) else 0)
  }

  lemma ReplayOne(events: seq<Event>, ev: Event, t: nat, b: Bucket)
    ensures Replayed(events + [ev], t, b) == Replayed(events, t, b) + (if ev.root == t then Says(ev, b) else 0)
  {
    assert (events + [ev])[..|events|] == events;
  }

  /** The part a partial seizure hands back: a child minted by a SEIZED event that
      carries no transaction of its own. */
  predicate HandedBack(events: seq<Event>, r: Receipt) {
    && r.parent.Some? && r.txnType.None?
    && r.sourceEvent.Some? && r.sourceEvent.value < |events|
    && events[r.sourceEvent.value].kind == Seized
  }

  function HandedBackShare(events: seq<Event>, t: nat): Receipt -> int {
    (r: Receipt) => if r.root == t && HandedBack(events, r) then r.quantity else 0
  }

  function HandedBackMass(db: Db, t: nat): int {
    Total(db.receipts, HandedBackShare(db.events, t))
  }

  /** Where the log overstates: a partial SEIZED event carries the whole quantity. */
  function Overstated(b: Bucket, mass: int): int {
    if b == SeizedAway then mass else if b == Available then -mass else 0
  }

  ghost predicate LogMatches(db: Db, t: nat, b: Bucket) {
    Replayed(db.events, t, b) == InTree(db.receipts, t, b) + Overstated(b, HandedBackMass(db, t))
  }

  /** Which status a kind of event takes a row from and to. */
  ghost predicate Describes(ev: Event, from: ReceiptStatus, to: ReceiptStatus) {
    match ev.kind
    case Approved =>
      if ev.from == ev.root then from == PENDING_APPROVAL && to == ACTIVE else from == to
    case Rejected => from == PENDING_APPROVAL && to == CANCELLED
    case HoldReleased => from in HELD && to == ACTIVE
    case PledgeAccepted => from in HELD && to in HELD
    case Consumed => from in HELD && to == WITHDRAWN
    case OwnershipTransferred => from == to
    case Seized => from in HELD && to == ReceiptStatus.SEIZED
    case Expired => from == ACTIVE && to == ReceiptStatus.EXPIRED
    case _ => false
  }

  lemma DescribedMoveIsSaid(ev: Event, before: Receipt, after: Receipt, t: nat, b: Bucket)
    requires Describes(ev, before.status, after.status)
    requires after.root == before.root == ev.root && after.quantity == before.quantity == ev.quantity
    ensures (if ev.root == t then Says(ev, b) else 0) == BucketShare(t, b)(after) - BucketShare(t, b)(before)
  {
  }

  /** In a rewriting plan the last event describes the move; an ownership event before it moves nothing. */
  lemma RewriteIsDescribed(db: Db, call: Call)
    requires Lineage(db.receipts) && StatusRules(db.receipts)
    requires Plan(db, call).Ok? && Plan(db, call).value.change.Rewrite?
    ensures var w := Plan(db, call).value;
            var at, row := w.change.at, w.change.row;
            && at < |db.receipts| && 1 <= |w.events| <= 2
            && (|w.events| == 2 ==> w.events[0].kind == OwnershipTransferred)
            && var last := w.events[|w.events| - 1];
               Describes(last, db.receipts[at].status, row.status)
               && row.root == db.receipts[at].root == last.root
               && row.quantity == db.receipts[at].quantity == last.quantity
  {
    hide SplitSuffixes, Numbers, Child, Partition, KeyUsed;
    var at := call.op.receipt;
    assert RowRules(db.receipts[at]) && LineageAt(db.receipts, at);
    assert db.receipts[at].parent.Some? ==> db.receipts[at].root != at by {
      if db.receipts[at].parent.Some? {
        assert LineageAt(db.receipts, db.receipts[at].parent.value);
      }
    }
    hide Lineage, StatusRules, LineageAt;
  }

  /** How an event splits a source row into its kids. */
  ghost predicate DescribesSplit(ev: Event, src: Receipt, kids: seq<Receipt>) {
    && 1 <= |kids| <= 2
    && ev.root == src.root == kids[0].root && (|kids| == 2 ==> kids[1].root == src.root)
    && src.quantity == kids[0].quantity + (if |kids| == 2 then kids[1].quantity else 0)
    && match ev.kind
       case HoldPlaced =>
         && src.status == ACTIVE && kids[0].status in HELD && kids[0].quantity == ev.quantity
         && (|kids| == 2 ==> kids[1].status == ACTIVE)
       case HoldReleased =>
         && src.status == HELD_LIEN && kids[0].status == ACTIVE && kids[0].quantity == ev.quantity
         && |kids| == 2 && kids[1].status == HELD_LIEN
       case Seized =>
         && src.status == HELD_LOAN && kids[0].status == ReceiptStatus.SEIZED && ev.quantity == src.quantity
         && |kids| == 2 && kids[1].status == ACTIVE
         && kids[0].txnType.Some? && kids[1].txnType.None?
       case _ => false
  }

  lemma DescribedSplitIsSaid(ev: Event, src: Receipt, kids: seq<Receipt>, t: nat, b: Bucket)
    requires DescribesSplit(ev, src, kids)
    ensures (if ev.root == t then Says(ev, b) else 0)
         == BucketShare(t, b)(Superseded(src)) - BucketShare(t, b)(src) + BucketShare(t, b)(kids[0])
            + (if |kids| == 2 then BucketShare(t, b)(kids[1]) else 0)
            + Overstated(b, if ev.kind == Seized && |kids| == 2 && ev.root == t then kids[1].quantity else 0)
  {
  }

  /** In a splitting plan the source leaves its bucket and the kids enter theirs. */
  lemma SplitIsDescribed(db: Db, call: Call)
    requires Plan(db, call).Ok? && Plan(db, call).value.change.Split?
    ensures var w := Plan(db, call).value;
            && w.change.at < |db.receipts| && |w.events| == 1
            && DescribesSplit(w.events[0], db.receipts[w.change.at], w.change.kids)
  {
    hide SplitSuffixes, Numbers, ChildNumber, KeyUsed, BaseReceiptNumber;
  }

  /** What the events of a plan say about a bucket of tree `t`. */
  function PlanSays(events: seq<Event>, t: nat, b: Bucket): int {
    if |events| == 0 then 0
    else (if events[0].root == t then Says(events[0], b) else 0)
         + (if |events| == 2 && events[1].root == t then Says(events[1], b) else 0)
  }

  /** The share of a plan's new rows that is handed back. */
  function PlanHandsBack(w: Writes, t: nat): int {
    if w.change.Split? && |w.change.kids| == 2 && |w.events| == 1 && w.events[0].kind == Seized
       && w.change.kids[1].root == t
    then w.change.kids[1].quantity else 0
  }

  lemma MintIsSaid(db: Db, call: Call, w: Writes, t: nat, b: Bucket)
    requires Plan(db, call) == Ok(w) && w.change.Mint?
    ensures PlanSays(w.events, t, b) == BucketShare(t, b)(w.change.row)
  {
    assert call.op.Deposit?;
  }

  /** Each primitive's events say exactly how its change moves the buckets, except
      that a partial seizure overstates what was taken by what it hands back. */
  lemma PlanSaysWhatItMoves(db: Db, call: Call, w: Writes, t: nat, b: Bucket)
    requires Sound(db) && Plan(db, call) == Ok(w)
    ensures PlanSays(w.events, t, b)
         == Shift(db.receipts, w.change, BucketShare(t, b)) + Overstated(b, PlanHandsBack(w, t))
  {
    hide Plan, Sound, BucketShare, Describes;
    if w.change.Split? {
      SplitIsDescribed(db, call);
      DescribedSplitIsSaid(w.events[0], db.receipts[w.change.at], w.change.kids, t, b);
    } else if w.change.Rewrite? {
      SoundIsFramed(db);
      RewriteIsDescribed(db, call);
      DescribedMoveIsSaid(w.events[|w.events| - 1], db.receipts[w.change.at], w.change.row, t, b);
    } else {
      MintIsSaid(db, call, w, t, b);
    }
  }

  lemma HandsBackShifts(db: Db, w: Writes, t: nat)
    requires LawfulChange(db, w.change) && LawfulEvents(db, w)
    requires w.change.Split? ==> DescribesSplit(w.events[0], db.receipts[w.change.at], w.change.kids)
    ensures Shift(db.receipts, w.change, HandedBackShare(db.events + w.events, t)) == PlanHandsBack(w, t)
  {
    hide Rank, RowRules;
    assert (db.events + w.events)[|db.events|] == w.events[0];
  }

  lemma HandedBackMassMoves(db: Db, w: Writes, t: nat)
    requires Sourced(db) && LawfulChange(db, w.change) && LawfulEvents(db, w)
    requires w.change.Split? ==> DescribesSplit(w.events[0], db.receipts[w.change.at], w.change.kids)
    ensures HandedBackMass(After(db, w), t) == HandedBackMass(db, t) + PlanHandsBack(w, t)
  {
    var before, after := HandedBackShare(db.events, t), HandedBackShare(db.events + w.events, t);
    HandsBackShifts(db, w, t);
    TotalShifts(db.receipts, w.change, after);
    forall r | r in db.receipts
      ensures before(r) == after(r)
    {
      var i: nat :| i < |db.receipts| && db.receipts[i] == r;
      assert SourcedAt(db, i);
    }
    TotalAgree(db.receipts, before, after);
  }

  lemma ReplayPlan(events: seq<Event>, more: seq<Event>, t: nat, b: Bucket)
    requires 1 <= |more| <= 2
    ensures Replayed(events + more, t, b) == Replayed(events, t, b) + PlanSays(more, t, b)
  {
    hide Replayed, Says;
    ReplayOne(events, more[0], t, b);
    if |more| == 2 {
      ReplayOne(events + [more[0]], more[1], t, b);
      assert events + more == events + [more[0]] + [more[1]];
    } else {
      assert events + more == events + [more[0]];
    }
  }

  lemma OverstatedAdds(b: Bucket, x: int, y: int)
    ensures Overstated(b, x + y) == Overstated(b, x) + Overstated(b, y)
  {
  }

  lemma LogMatchingAdds(db: Db, w: Writes, t: nat, b: Bucket)
    requires LogMatches(db, t, b)
    requires Replayed(db.events + w.events, t, b) == Replayed(db.events, t, b) + PlanSays(w.events, t, b)
    requires PlanSays(w.events, t, b)
          == Shift(db.receipts, w.change, BucketShare(t, b)) + Overstated(b, PlanHandsBack(w, t))
    requires Total(Changed(db.receipts, w.change), BucketShare(t, b))
          == Total(db.receipts, BucketShare(t, b)) + Shift(db.receipts, w.change, BucketShare(t, b))
    requires HandedBackMass(After(db, w), t) == HandedBackMass(db, t) + PlanHandsBack(w, t)
    requires Overstated(b, HandedBackMass(db, t) + PlanHandsBack(w, t))
          == Overstated(b, HandedBackMass(db, t)) + Overstated(b, PlanHandsBack(w, t))
    ensures LogMatches(After(db, w), t, b)
  {
    hide Replayed, PlanSays, Shift, BucketShare, Total, HandedBackMass, PlanHandsBack, Overstated, Changed;
  }

  lemma LawfulParts(db: Db, w: Writes)
    requires Sound(db) && Lawful(db, w)
    ensures Sourced(db) && LawfulChange(db, w.change) && LawfulEvents(db, w)
    ensures 1 <= |w.events| <= 2 && (w.change.Split? ==> 1 <= |w.change.kids| <= 2)
    ensures !w.change.Mint? ==> w.change.at < |db.receipts|
  {
    hide Sourced, Lineage, Conserved, StatusRules, EventsFit, SharedBases, Distinct, LawfulNumbers;
  }

  lemma WriteKeepsLogMatching(db: Db, call: Call, w: Writes, t: nat, b: Bucket)
    requires Sound(db) && Plan(db, call) == Ok(w) && Lawful(db, w) && LogMatches(db, t, b)
    ensures LogMatches(After(db, w), t, b)
  {
    hide *;
    LawfulParts(db, w);
    if w.change.Split? {
      SplitIsDescribed(db, call);
    }
    PlanSaysWhatItMoves(db, call, w, t, b);
    HandedBackMassMoves(db, w, t);
    ReplayPlan(db.events, w.events, t, b);
    TotalShifts(db.receipts, w.change, BucketShare(t, b));
    OverstatedAdds(b, HandedBackMass(db, t), PlanHandsBack(w, t));
    LogMatchingAdds(db, w, t, b);
  }

  lemma {:induction false} RunKeepsLogMatching(calls: seq<Call>, t: nat, b: Bucket)
    ensures Sound(Run(EMPTY_DB, calls)) && LogMatches(Run(EMPTY_DB, calls), t, b)
  {
    EmptyIsSound();
    RunIsSound(EMPTY_DB, calls);
    if calls != [] {
      var db, call := Run(EMPTY_DB, calls[..|calls| - 1]), calls[|calls| - 1];
      RunKeepsLogMatching(calls[..|calls| - 1], t, b);
      CallWritesItsPlan(db, call);
      hide Sound, Plan, Lawful, LogMatches, Collides;
      if Invoke(db, call).db != db {
        WriteKeepsLogMatching(db, call, Plan(db, call).value, t, b);
      }
    }
  }

  lemma NothingHandedBack(db: Db, t: nat)
    requires Sound(db)
    ensures HandedBackMass(db, t) == 0 <==> forall r :: r in db.receipts && r.root == t ==> !HandedBack(db.events, r)
  {
    hide Lineage, StatusRules, EventsFit, Sourced, SharedBases, HandedBack;
    var share := HandedBackShare(db.events, t);
    forall r | r in db.receipts
      ensures r.quantity > 0
    {
      var i: nat :| i < |db.receipts| && db.receipts[i] == r;
      assert NodesOf(db.receipts)[i].quantity > 0;
    }
    TotalNonnegative(db.receipts, share);
    assert forall r :: r in db.receipts ==> (share(r) == 0 <==> !(r.root == t && HandedBack(db.events, r)));
  }

  /** Replay refines state, and exactly when: after any run, the log of a tree replays
      to the masses standing in the tree, bucket by bucket, if and only if no part of
      the tree was ever handed back by a partial seizure; otherwise it reports that
      part as seized although it is available. */
  lemma ReplayAgreesExactly(calls: seq<Call>, t: nat)
    ensures var db := Run(EMPTY_DB, calls);
            && (forall b ::
                  Replayed(db.events, t, b) == InTree(db.receipts, t, b) + Overstated(b, HandedBackMass(db, t)))
            && ((forall b :: Replayed(db.events, t, b) == InTree(db.receipts, t, b))
                <==> forall r :: r in db.receipts && r.root == t ==> !HandedBack(db.events, r))
  {
    hide Sound, Run, Replayed, InTree, HandedBack, HandedBackMass;
    var db := Run(EMPTY_DB, calls);
    RunKeepsLogMatching(calls, t, Available);
    forall b
      ensures Replayed(db.events, t, b) == InTree(db.receipts, t, b) + Overstated(b, HandedBackMass(db, t))
    {
      RunKeepsLogMatching(calls, t, b);
    }
    NothingHandedBack(db, t);
    assert Replayed(db.events, t, SeizedAway) == InTree(db.receipts, t, SeizedAway) + HandedBackMass(db, t);
  }
}
