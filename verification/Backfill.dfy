/** The legacy backfill (prisma/backfill/phase1-backfill.ts) and the gate that follows it
    (prisma/backfill/phase1-verify.ts): what one run makes of any forest of legacy
    receipts, and that a second run changes nothing. */
module Backfill {
  import opened InventoryTypes
  import opened Mass
  import opened Sequences
  import opened Forest

  datatype Holding = Holding(tenant: string, commodity: string, warehouse: string, client: string)

  datatype LegacyReceipt = LegacyReceipt(
    number: string,
    status: ReceiptStatus,
    approval: ApprovalStatus,
    holding: Holding,
    quantity: int,
    parent: Option<nat>,
    root: Option<nat>,
    isParent: bool,
    txnType: Option<TxnType>,
    txnId: Option<nat>,
    sourceEvent: Option<nat>)

  datatype LegacyKey = GenesisKey(id: nat) | ReconKey(id: nat) | OtherKey(text: string)

  datatype LegacyEvent = LegacyEvent(
    tenant: string,
    root: nat,
    from: nat,
    kind: EventKind,
    txnType: Option<TxnType>,
    txnId: Option<nat>,
    quantity: int,
    key: LegacyKey)

  /** Completed withdrawals, oldest first. */
  datatype LegacyWithdrawal = LegacyWithdrawal(receipt: nat, completed: bool, quantity: int)

  function ShapeOf(rows: seq<LegacyReceipt>): (nodes: seq<Forest.Node>)
    ensures |nodes| == |rows|
    ensures forall i :: 0 <= i < |rows| ==> nodes[i] == Forest.Node(rows[i].parent, rows[i].quantity, rows[i].isParent)
  {
    seq(|rows|, i requires 0 <= i < |rows| => Forest.Node(rows[i].parent, rows[i].quantity, rows[i].isParent))
  }

  function KeysOf(events: seq<LegacyEvent>): (keys: seq<LegacyKey>)
    ensures |keys| == |events|
    ensures forall e :: 0 <= e < |events| ==> keys[e] == events[e].key
  {
    seq(|events|, e requires 0 <= e < |events| => events[e].key)
  }

  function NumbersOf(rows: seq<LegacyReceipt>): (numbers: seq<string>)
    ensures |numbers| == |rows|
    ensures forall i :: 0 <= i < |rows| ==> numbers[i] == rows[i].number
  {
    seq(|rows|, i requires 0 <= i < |rows| => rows[i].number)
  }

  predicate HasChildren(rows: seq<LegacyReceipt>, p: nat) {
    exists c :: 0 <= c < |rows| && rows[c].parent == Some(p)
  }

  predicate OnFile(events: seq<LegacyEvent>, key: LegacyKey) {
    exists e :: 0 <= e < |events| && events[e].key == key
  }

  predicate NumberOnFile(rows: seq<LegacyReceipt>, number: string) {
    exists i :: 0 <= i < |rows| && rows[i].number == number
  }

  // ----- Step A: structure -------------------------------------------------

  /** Root columns name the topmost ancestor. */
  ghost predicate RootsRight(rows: seq<LegacyReceipt>, rank: seq<nat>)
    requires Acyclic(ShapeOf(rows), rank)
  {
    forall i: nat :: i < |rows| ==> rows[i].root == Some(Top(ShapeOf(rows), rank, i))
  }

  /** Every row that has children is a superseded SPLIT parent. */
  ghost predicate Promoted(rows: seq<LegacyReceipt>) {
    forall p: nat :: p < |rows| && HasChildren(rows, p) ==> rows[p].isParent && rows[p].status == SPLIT
  }

  ghost function Rooted(rows: seq<LegacyReceipt>, rank: seq<nat>, i: nat): LegacyReceipt
    requires Acyclic(ShapeOf(rows), rank) && i < |rows|
  {
    rows[i].(root := Some(Top(ShapeOf(rows), rank, i)))
  }

  /** What step A does to one row. */
  ghost function Structured(rows: seq<LegacyReceipt>, rank: seq<nat>, i: nat): LegacyReceipt
    requires Acyclic(ShapeOf(rows), rank) && i < |rows|
  {
    var r := Rooted(rows, rank, i);
    if HasChildren(rows, i) then r.(isParent := true, status := SPLIT) else r
  }

  lemma {:induction false} TopFollowsParents(nodes: seq<Forest.Node>, later: seq<Forest.Node>, rank: seq<nat>,
                                             laterRank: seq<nat>, i: nat)
    requires Acyclic(nodes, rank) && Acyclic(later, laterRank) && i < |nodes| <= |later|
    requires forall k :: 0 <= k < |nodes| ==> later[k].parent == nodes[k].parent
    ensures Top(later, laterRank, i) == Top(nodes, rank, i)
    decreases rank[i]
  {
    if nodes[i].parent.Some? {
      TopFollowsParents(nodes, later, rank, laterRank, nodes[i].parent.value);
    }
  }

  /** Rows a chain of joins from the roots has reached, with the root each was reached from. */
  ghost predicate ChainRight(rows: seq<LegacyReceipt>, rank: seq<nat>, chain: map<nat, nat>)
    requires Acyclic(ShapeOf(rows), rank)
  {
    && (forall i :: i in chain ==> i < |rows| && chain[i] == Top(ShapeOf(rows), rank, i))
    && (forall i: nat :: i < |rows| && rows[i].parent.None? ==> i in chain)
  }

  /** A chain that no join extends has reached every row of an acyclic forest. */
  lemma {:induction false} ChainReachesAll(rows: seq<LegacyReceipt>, rank: seq<nat>, chain: map<nat, nat>, i: nat)
    requires Acyclic(ShapeOf(rows), rank) && ChainRight(rows, rank, chain) && i < |rows|
    requires forall k: nat :: k < |rows| && rows[k].parent.Some? && rows[k].parent.value in chain ==> k in chain
    ensures i in chain
    decreases rank[i]
  {
    if rows[i].parent.Some? {
      assert ShapeOf(rows)[i].parent == rows[i].parent;
      ChainReachesAll(rows, rank, chain, rows[i].parent.value);
    }
  }

  ghost function UpTo(n: nat): (s: set<nat>)
    ensures forall i: nat :: i in s <==> i < n
  {
    if n == 0 then {} else UpTo(n - 1) + {n - 1}
  }

  /** One join: the rows whose parent the chain has reached and that it has not. */
  function NextJoin(rows: seq<LegacyReceipt>, chain: map<nat, nat>): set<nat> {
    set i: nat | i < |rows| && rows[i].parent.Some? && i !in chain && rows[i].parent.value in chain
  }

  function Joined(rows: seq<LegacyReceipt>, chain: map<nat, nat>): map<nat, nat> {
    chain + map i | i in NextJoin(rows, chain) :: chain[rows[i].parent.value]
  }

  lemma JoinKeepsChain(rows: seq<LegacyReceipt>, rank: seq<nat>, chain: map<nat, nat>)
    requires Acyclic(ShapeOf(rows), rank) && ChainRight(rows, rank, chain)
    ensures ChainRight(rows, rank, Joined(rows, chain))
  {
  }

  /** The recursive query: the roots, then their children, then theirs. */
  method Chain(rows: seq<LegacyReceipt>, ghost rank: seq<nat>) returns (chain: map<nat, nat>)
    requires Acyclic(ShapeOf(rows), rank)
    ensures forall i: nat :: i in chain <==> i < |rows|
    ensures forall i: nat :: i < |rows| ==> chain[i] == Top(ShapeOf(rows), rank, i)
  {
    chain := map i: nat | i < |rows| && rows[i].parent.None? :: i;
    while NextJoin(rows, chain) != {}
      invariant ChainRight(rows, rank, chain)
      decreases UpTo(|rows|) - chain.Keys
    {
      ghost var one :| one in NextJoin(rows, chain);
      JoinKeepsChain(rows, rank, chain);
      assert one in UpTo(|rows|) - chain.Keys && one in Joined(rows, chain);
      chain := Joined(rows, chain);
    }
    forall i: nat | i < |rows|
      ensures i in chain
    {
      forall k: nat | k < |rows| && rows[k].parent.Some? && rows[k].parent.value in chain
        ensures k in chain
      {
        assert k !in NextJoin(rows, chain);
      }
      ChainReachesAll(rows, rank, chain, i);
    }
  }

  // ----- Leaves ------------------------------------------------------------

  /** The leaves of a tree, whatever its flags and root columns say yet. */
  ghost function LeavesUnder(rows: seq<LegacyReceipt>, rank: seq<nat>, t: nat): set<nat>
    requires Acyclic(ShapeOf(rows), rank)
  {
    set i: nat | i < |rows| && Top(ShapeOf(rows), rank, i) == t && !rows[i].isParent && !HasChildren(rows, i)
  }

  ghost function LeafSum(rows: seq<LegacyReceipt>, rank: seq<nat>, t: nat): int
    requires Acyclic(ShapeOf(rows), rank)
  {
    Sum(Quantities(ShapeOf(rows)), LeavesUnder(rows, rank, t))
  }

  /** What the root weighs beyond its leaves. */
  ghost function Gap(rows: seq<LegacyReceipt>, rank: seq<nat>, t: nat): int
    requires Acyclic(ShapeOf(rows), rank) && t < |rows|
  {
    rows[t].quantity - LeafSum(rows, rank, t)
  }

  /** The sum the reconciling query computes. */
  function FiledLeafSum(rows: seq<LegacyReceipt>, t: nat): int {
    Sum(Quantities(ShapeOf(rows)), set i: nat | i < |rows| && rows[i].root == Some(t) && !rows[i].isParent)
  }

  lemma FiledIsLeafSum(rows: seq<LegacyReceipt>, rank: seq<nat>, t: nat)
    requires Acyclic(ShapeOf(rows), rank) && RootsRight(rows, rank) && Promoted(rows)
    ensures FiledLeafSum(rows, t) == LeafSum(rows, rank, t)
  {
    assert LeavesUnder(rows, rank, t) == set i: nat | i < |rows| && rows[i].root == Some(t) && !rows[i].isParent;
  }

  /** Rows with the same shape, up to flags raised on rows that have children, have the
      same leaves. */
  lemma SameLeaves(rows: seq<LegacyReceipt>, later: seq<LegacyReceipt>, rank: seq<nat>, t: nat)
    requires Acyclic(ShapeOf(rows), rank) && |later| == |rows|
    requires forall i :: 0 <= i < |rows| ==>
               && later[i].parent == rows[i].parent && later[i].quantity == rows[i].quantity
               && (later[i].isParent == rows[i].isParent || HasChildren(rows, i))
    ensures Acyclic(ShapeOf(later), rank) && LeafSum(later, rank, t) == LeafSum(rows, rank, t)
    ensures forall i: nat :: i < |rows| ==> (HasChildren(later, i) <==> HasChildren(rows, i))
    ensures forall i: nat :: i < |rows| ==> Top(ShapeOf(later), rank, i) == Top(ShapeOf(rows), rank, i)
  {
    forall i: nat | i < |rows|
      ensures HasChildren(later, i) <==> HasChildren(rows, i)
    {
      if HasChildren(rows, i) {
        var c :| 0 <= c < |rows| && rows[c].parent == Some(i);
        assert later[c].parent == Some(i);
      }
    }
    forall i: nat | i < |rows|
      ensures Top(ShapeOf(later), rank, i) == Top(ShapeOf(rows), rank, i)
    {
      TopFollowsParents(ShapeOf(rows), ShapeOf(later), rank, rank, i);
    }
    assert LeavesUnder(later, rank, t) == LeavesUnder(rows, rank, t);
    assert Quantities(ShapeOf(later)) == Quantities(ShapeOf(rows));
  }

  // ----- Step C: one reconciled root ---------------------------------------

  function ReconNumber(root: LegacyReceipt): string {
    root.number + "-RCN"
  }

  /** The first completed withdrawal of a quantity in a tree. */
  function MatchFrom(rows: seq<LegacyReceipt>, withdrawals: seq<LegacyWithdrawal>, t: nat, gap: int,
                     k: nat): Option<nat>
    requires k <= |withdrawals|
    decreases |withdrawals| - k
  {
    if k == |withdrawals| then None
    else if withdrawals[k].completed && withdrawals[k].receipt < |rows| && rows[withdrawals[k].receipt].root == Some(t)
            && withdrawals[k].quantity == gap then Some(k)
    else MatchFrom(rows, withdrawals, t, gap, k + 1)
  }

  function ReconEvent(root: LegacyReceipt, t: nat, gap: int, found: Option<nat>): LegacyEvent {
    LegacyEvent(root.holding.tenant, t, t, if found.Some? then Consumed else LegacyReconciliation,
                Some(if found.Some? then WITHDRAWAL else ADJUSTMENT), found, gap, ReconKey(t))
  }

  function ReconChild(root: LegacyReceipt, t: nat, gap: int, found: Option<nat>, e: nat): LegacyReceipt {
    LegacyReceipt(ReconNumber(root), if found.Some? then WITHDRAWN else CANCELLED, APPROVED, root.holding, gap,
                  Some(t), Some(t), false,
                  Some(if found.Some? then WITHDRAWAL else ADJUSTMENT), found, Some(e))
  }

  function Attached(rows: seq<LegacyReceipt>, t: nat, child: LegacyReceipt): seq<LegacyReceipt>
    requires t < |rows|
  {
    rows[t := rows[t].(isParent := true, status := SPLIT)] + [child]
  }

  ghost function Deeper(rank: seq<nat>, t: nat): seq<nat>
    requires t < |rank|
  {
    rank + [rank[t] + 1]
  }

  /** A root that weighs more than its leaves has been flagged as a parent: an unflagged
      one is its own only leaf. */
  lemma {:induction false} LoneRootHasNoGap(rows: seq<LegacyReceipt>, rank: seq<nat>, t: nat)
    requires Acyclic(ShapeOf(rows), rank) && t < |rows| && rows[t].parent.None? && !rows[t].isParent
    requires !HasChildren(rows, t)
    ensures Gap(rows, rank, t) == 0
  {
    forall i: nat | i < |rows| && i != t
      ensures Top(ShapeOf(rows), rank, i) != t
    {
      NotUnderChildless(rows, rank, t, i);
    }
    assert LeavesUnder(rows, rank, t) == {t};
    SumSingle(Quantities(ShapeOf(rows)), t);
  }

  lemma {:induction false} NotUnderChildless(rows: seq<LegacyReceipt>, rank: seq<nat>, t: nat, i: nat)
    requires Acyclic(ShapeOf(rows), rank) && t < |rows| && i < |rows| && !HasChildren(rows, t) && i != t
    ensures Top(ShapeOf(rows), rank, i) != t
    decreases rank[i]
  {
    assert ShapeOf(rows)[i].parent == rows[i].parent;
    if rows[i].parent.Some? {
      NotUnderChildless(rows, rank, t, rows[i].parent.value);
    }
  }

  lemma AttachKeepsForest(rows: seq<LegacyReceipt>, rank: seq<nat>, t: nat, child: LegacyReceipt)
    requires Acyclic(ShapeOf(rows), rank) && t < |rows| && rows[t].parent.None? && child.parent == Some(t)
    ensures var later, deeper := Attached(rows, t, child), Deeper(rank, t);
            && Acyclic(ShapeOf(later), deeper)
            && (forall i: nat :: i < |rows| ==> Top(ShapeOf(later), deeper, i) == Top(ShapeOf(rows), rank, i))
            && Top(ShapeOf(later), deeper, |rows|) == t
            && (forall i: nat :: i < |rows| ==> (HasChildren(later, i) <==> HasChildren(rows, i) || i == t))
            && !HasChildren(later, |rows|)
  {
    var later, deeper, n := Attached(rows, t, child), Deeper(rank, t), |rows|;
    assert forall i: nat :: i < n ==> later[i].parent == rows[i].parent;
    assert Acyclic(ShapeOf(later), deeper);
    forall i: nat | i < n
      ensures Top(ShapeOf(later), deeper, i) == Top(ShapeOf(rows), rank, i)
    {
      TopFollowsParents(ShapeOf(rows), ShapeOf(later), rank, deeper, i);
    }
    forall i: nat | i < n
      ensures HasChildren(later, i) <==> HasChildren(rows, i) || i == t
    {
      if HasChildren(rows, i) {
        var c :| 0 <= c < n && rows[c].parent == Some(i);
        assert later[c].parent == Some(i);
      }
      assert later[n].parent == Some(t);
    }
    forall c: nat | c < |later|
      ensures later[c].parent != Some(n)
    {
      assert c < n ==> ShapeOf(rows)[c].parent == rows[c].parent;
    }
  }

  /** Attaching a child of the gap's weight closes the gap of its root and touches no
      other tree. */
  lemma AttachClosesGap(rows: seq<LegacyReceipt>, rank: seq<nat>, t: nat, child: LegacyReceipt, s: nat)
    requires Acyclic(ShapeOf(rows), rank) && t < |rows| && rows[t].parent.None?
    requires rows[t].isParent || HasChildren(rows, t)
    requires child.parent == Some(t) && !child.isParent
    ensures Acyclic(ShapeOf(Attached(rows, t, child)), Deeper(rank, t))
    ensures LeafSum(Attached(rows, t, child), Deeper(rank, t), s)
         == LeafSum(rows, rank, s) + (if s == t then child.quantity else 0)
  {
    AttachKeepsForest(rows, rank, t, child);
    var later, deeper, n := Attached(rows, t, child), Deeper(rank, t), |rows|;
    var column := Quantities(ShapeOf(rows));
    assert Quantities(ShapeOf(later)) == column + [child.quantity];
    SumPush(column, child.quantity, LeavesUnder(later, deeper, s));
    SumAgree(column, LeavesUnder(later, deeper, s), LeavesUnder(rows, rank, s));
  }

  // ----- Step C: the loop over the roots -----------------------------------

  /** A root whose gap step C closes: too heavy for its leaves, and not reconciled on a
      prior run. */
  ghost predicate Closable(rows: seq<LegacyReceipt>, rank: seq<nat>, events: seq<LegacyEvent>, t: nat)
    requires Acyclic(ShapeOf(rows), rank)
  {
    t < |rows| && rows[t].parent.None? && Gap(rows, rank, t) > 0 && !OnFile(events, ReconKey(t))
  }

  /** The number of a reconciling child is taken. */
  ghost predicate NumberCollides(rows: seq<LegacyReceipt>, rank: seq<nat>, events: seq<LegacyEvent>)
    requires Acyclic(ShapeOf(rows), rank)
  {
    exists t: nat :: Closable(rows, rank, events, t) && NumberOnFile(rows, ReconNumber(rows[t]))
  }

  /** The first root whose reconciling child finds its number taken. */
  ghost predicate FirstCollision(rows: seq<LegacyReceipt>, rank: seq<nat>, events: seq<LegacyEvent>, at: nat)
    requires Acyclic(ShapeOf(rows), rank)
  {
    && Closable(rows, rank, events, at) && NumberOnFile(rows, ReconNumber(rows[at]))
    && forall s: nat :: s < at && Closable(rows, rank, events, s) ==> !NumberOnFile(rows, ReconNumber(rows[s]))
  }

  ghost predicate OverAllocated(rows: seq<LegacyReceipt>, rank: seq<nat>, t: nat)
    requires Acyclic(ShapeOf(rows), rank)
  {
    t < |rows| && rows[t].parent.None? && Gap(rows, rank, t) < 0
  }

  /** The child that closed the gap of a root, and its event. */
  ghost predicate ClosesGap(rows: seq<LegacyReceipt>, rank: seq<nat>, events: seq<LegacyEvent>, r: LegacyReceipt,
                            laterEvents: seq<LegacyEvent>, t: nat)
    requires Acyclic(ShapeOf(rows), rank)
  {
    && r.parent.Some? && r.parent.value < t && Closable(rows, rank, events, r.parent.value)
    && r.root == r.parent && !r.isParent && r.quantity == Gap(rows, rank, r.parent.value)
    && r.number == ReconNumber(rows[r.parent.value])
    && r.sourceEvent.Some? && r.sourceEvent.value < |laterEvents|
    && laterEvents[r.sourceEvent.value].key == ReconKey(r.parent.value)
    && laterEvents[r.sourceEvent.value].quantity == r.quantity
  }

  /** The table after the roots below `t`. */
  ghost predicate Progressed(rows: seq<LegacyReceipt>, rank: seq<nat>, events: seq<LegacyEvent>,
                             later: seq<LegacyReceipt>, laterRank: seq<nat>, laterEvents: seq<LegacyEvent>, t: nat)
    requires Acyclic(ShapeOf(rows), rank)
  {
    && |rows| <= |later|
    && Acyclic(ShapeOf(later), laterRank) && RootsRight(later, laterRank) && Promoted(later)
    && (forall i: nat :: i < |rows| ==>
          later[i] == if i < t && Closable(rows, rank, events, i) then rows[i].(isParent := true, status := SPLIT)
            else rows[i])
    && (forall i: nat :: |rows| <= i < |later| ==> ClosesGap(rows, rank, events, later[i], laterEvents, t))
    && (forall s: nat :: s < |rows| ==>
          LeafSum(later, laterRank, s)
          == LeafSum(rows, rank, s) + if s < t && Closable(rows, rank, events, s) then Gap(rows, rank, s) else 0)
    && events <= laterEvents
    && Distinct(NumbersOf(later)) && Distinct(KeysOf(laterEvents))
    && (forall e: nat :: |events| <= e < |laterEvents| ==> laterEvents[e].key.ReconKey?)
    && (forall key :: OnFile(laterEvents, key) <==>
          OnFile(events, key) || (key.ReconKey? && key.id < t && Closable(rows, rank, events, key.id)))
  }

  lemma NotYetProgressed(rows: seq<LegacyReceipt>, rank: seq<nat>, events: seq<LegacyEvent>)
    requires Acyclic(ShapeOf(rows), rank) && RootsRight(rows, rank) && Promoted(rows)
    requires Distinct(NumbersOf(rows)) && Distinct(KeysOf(events))
    ensures Progressed(rows, rank, events, rows, rank, events, 0)
  {
  }

  /** A root that is left alone. */
  lemma PassOver(rows: seq<LegacyReceipt>, rank: seq<nat>, events: seq<LegacyEvent>,
                 later: seq<LegacyReceipt>, laterRank: seq<nat>, laterEvents: seq<LegacyEvent>, t: nat)
    requires Acyclic(ShapeOf(rows), rank) && Progressed(rows, rank, events, later, laterRank, laterEvents, t)
    requires !Closable(rows, rank, events, t)
    ensures Progressed(rows, rank, events, later, laterRank, laterEvents, t + 1)
  {
    hide Closable, RootsRight, Promoted, LeafSum, OnFile;
    forall i: nat | |rows| <= i < |later|
      ensures ClosesGap(rows, rank, events, later[i], laterEvents, t + 1)
    {
      assert ClosesGap(rows, rank, events, later[i], laterEvents, t);
    }
  }

  lemma OneMoreOnFile(events: seq<LegacyEvent>, ev: LegacyEvent, key: LegacyKey)
    ensures OnFile(events + [ev], key) <==> OnFile(events, key) || key == ev.key
  {
    var all := events + [ev];
    if OnFile(events, key) {
      var e :| 0 <= e < |events| && events[e].key == key;
      assert all[e].key == key;
    }
    assert all[|events|] == ev;
  }

  /** A root that is too heavy carries the flag of a parent. */
  lemma GapMeansParent(rows: seq<LegacyReceipt>, rank: seq<nat>, t: nat)
    requires Acyclic(ShapeOf(rows), rank) && Promoted(rows)
    requires t < |rows| && rows[t].parent.None? && Gap(rows, rank, t) != 0
    ensures rows[t].isParent
  {
    hide Gap;
    if !rows[t].isParent {
      LoneRootHasNoGap(rows, rank, t);
    }
  }

  lemma AttachKeepsStructure(rows: seq<LegacyReceipt>, rank: seq<nat>, t: nat, child: LegacyReceipt)
    requires Acyclic(ShapeOf(rows), rank) && RootsRight(rows, rank) && Promoted(rows)
    requires t < |rows| && rows[t].parent.None? && child.parent == Some(t) == child.root
    ensures Acyclic(ShapeOf(Attached(rows, t, child)), Deeper(rank, t))
    ensures RootsRight(Attached(rows, t, child), Deeper(rank, t)) && Promoted(Attached(rows, t, child))
  {
    AttachKeepsForest(rows, rank, t, child);
    hide HasChildren;
  }

  lemma CloseGapSums(rows: seq<LegacyReceipt>, rank: seq<nat>, events: seq<LegacyEvent>,
                     later: seq<LegacyReceipt>, laterRank: seq<nat>, laterEvents: seq<LegacyEvent>, t: nat,
                       child: LegacyReceipt)
    requires Acyclic(ShapeOf(rows), rank) && Progressed(rows, rank, events, later, laterRank, laterEvents, t)
    requires Closable(rows, rank, events, t) && rows[t].isParent
    requires child.parent == Some(t) && !child.isParent && child.quantity == Gap(rows, rank, t)
    ensures Acyclic(ShapeOf(Attached(later, t, child)), Deeper(laterRank, t))
    ensures forall s: nat :: s < |rows| ==>
              LeafSum(Attached(later, t, child), Deeper(laterRank, t), s)
              == LeafSum(rows, rank, s) + if s < t + 1 && Closable(rows, rank, events, s) then Gap(rows, rank, s) else 0
  {
    hide LeafSum, OnFile, Gap, HasChildren, RootsRight, Promoted, ClosesGap;
    AttachClosesGap(later, laterRank, t, child, t);
    forall s: nat | s < |rows|
      ensures LeafSum(Attached(later, t, child), Deeper(laterRank, t), s)
           == LeafSum(rows, rank, s) + if s < t + 1 && Closable(rows, rank, events, s) then Gap(rows, rank, s) else 0
    {
      AttachClosesGap(later, laterRank, t, child, s);
    }
  }

  lemma CloseGapKeys(rows: seq<LegacyReceipt>, rank: seq<nat>, events: seq<LegacyEvent>,
                     laterEvents: seq<LegacyEvent>, t: nat, ev: LegacyEvent)
    requires Acyclic(ShapeOf(rows), rank) && Closable(rows, rank, events, t) && ev.key == ReconKey(t)
    requires forall key :: OnFile(laterEvents, key) <==>
               OnFile(events, key) || (key.ReconKey? && key.id < t && Closable(rows, rank, events, key.id))
    ensures forall key :: OnFile(laterEvents + [ev], key) <==>
              OnFile(events, key) || (key.ReconKey? && key.id < t + 1 && Closable(rows, rank, events, key.id))
  {
    hide LeafSum, OnFile, Gap, Closable;
    forall key
      ensures OnFile(laterEvents + [ev], key) <==>
        OnFile(events, key) || (key.ReconKey? && key.id < t + 1 && Closable(rows, rank, events, key.id))
    {
      OneMoreOnFile(laterEvents, ev, key);
    }
  }

  lemma CloseGapKids(rows: seq<LegacyReceipt>, rank: seq<nat>, events: seq<LegacyEvent>,
                     later: seq<LegacyReceipt>, laterEvents: seq<LegacyEvent>, t: nat, child: LegacyReceipt,
                       ev: LegacyEvent)
    requires Acyclic(ShapeOf(rows), rank) && Closable(rows, rank, events, t) && t < |later|
    requires forall i: nat :: |rows| <= i < |later| ==> ClosesGap(rows, rank, events, later[i], laterEvents, t)
    requires ClosesGap(rows, rank, events, child, laterEvents + [ev], t + 1)
    ensures forall i: nat :: |rows| <= i < |Attached(later, t, child)| ==>
              ClosesGap(rows, rank, events, Attached(later, t, child)[i], laterEvents + [ev], t + 1)
  {
    assert t < |rows|;
    hide Closable, Gap;
    var after, filed := Attached(later, t, child), laterEvents + [ev];
    forall i: nat | |rows| <= i < |after|
      ensures ClosesGap(rows, rank, events, after[i], filed, t + 1)
    {
      if i < |later| {
        assert after[i] == later[i];
        assert ClosesGap(rows, rank, events, later[i], laterEvents, t);
      } else {
        assert after[i] == child;
      }
    }
  }

  /** The root's gap is closed by one child and one event. */
  lemma CloseGap(rows: seq<LegacyReceipt>, rank: seq<nat>, events: seq<LegacyEvent>,
                 later: seq<LegacyReceipt>, laterRank: seq<nat>, laterEvents: seq<LegacyEvent>, t: nat,
                   found: Option<nat>)
    requires Acyclic(ShapeOf(rows), rank) && Promoted(rows)
    requires Progressed(rows, rank, events, later, laterRank, laterEvents, t)
    requires Closable(rows, rank, events, t)
    requires !NumberOnFile(later, ReconNumber(rows[t])) && !OnFile(laterEvents, ReconKey(t))
    ensures var gap := Gap(rows, rank, t);
            var child := ReconChild(rows[t], t, gap, found, |laterEvents|);
            Progressed(rows, rank, events, Attached(later, t, child), Deeper(laterRank, t),
                       laterEvents + [ReconEvent(rows[t], t, gap, found)], t + 1)
  {
    hide LeafSum, OnFile, Gap, HasChildren, RootsRight, Promoted, Acyclic;
    var gap := Gap(rows, rank, t);
    var child := ReconChild(rows[t], t, gap, found, |laterEvents|);
    var ev := ReconEvent(rows[t], t, gap, found);
    GapMeansParent(rows, rank, t) by { OpenHasGap(rows, rank, events, t); }
    assert later[t] == rows[t];
    assert (laterEvents + [ev])[|laterEvents|] == ev;
    CloseGapKids(rows, rank, events, later, laterEvents, t, child, ev);
    hide ClosesGap;
    AttachKeepsStructure(later, laterRank, t, child);
    CloseGapSums(rows, rank, events, later, laterRank, laterEvents, t, child);
    CloseGapKeys(rows, rank, events, laterEvents, t, ev);
    NewKeyStaysDistinct(laterEvents, ev);
    NewNumberStaysDistinct(later, t, child);
    hide Closable;
    assert events <= laterEvents + [ev];
  }

  lemma NewNumberStaysDistinct(rows: seq<LegacyReceipt>, t: nat, child: LegacyReceipt)
    requires Distinct(NumbersOf(rows)) && t < |rows| && !NumberOnFile(rows, child.number)
    ensures Distinct(NumbersOf(Attached(rows, t, child)))
  {
    assert NumbersOf(Attached(rows, t, child)) == NumbersOf(rows) + [child.number];
  }

  lemma OpenHasGap(rows: seq<LegacyReceipt>, rank: seq<nat>, events: seq<LegacyEvent>, t: nat)
    requires Acyclic(ShapeOf(rows), rank) && Closable(rows, rank, events, t)
    ensures Gap(rows, rank, t) > 0
  {
  }

  /** The number of the new child is free exactly if the legacy rows do not use it. */
  lemma ReconNumberFree(rows: seq<LegacyReceipt>, rank: seq<nat>, events: seq<LegacyEvent>,
                        later: seq<LegacyReceipt>, laterRank: seq<nat>, laterEvents: seq<LegacyEvent>, t: nat)
    requires Acyclic(ShapeOf(rows), rank) && Progressed(rows, rank, events, later, laterRank, laterEvents, t)
    requires Distinct(NumbersOf(rows)) && t < |rows|
    ensures NumberOnFile(later, ReconNumber(rows[t])) <==> NumberOnFile(rows, ReconNumber(rows[t]))
  {
    hide LeafSum, OnFile, Gap, HasChildren, RootsRight, Promoted;
    var number := ReconNumber(rows[t]);
    if NumberOnFile(rows, number) {
      var i :| 0 <= i < |rows| && rows[i].number == number;
      assert later[i].number == number;
    }
    forall i: nat | |rows| <= i < |later|
      ensures later[i].number != number
    {
      assert ClosesGap(rows, rank, events, later[i], laterEvents, t);
      ReconNumbersDiffer(rows, later[i].parent.value, t);
    }
    forall i: nat | i < |rows|
      ensures later[i].number == rows[i].number
    {
    }
  }

  lemma ReconNumbersDiffer(rows: seq<LegacyReceipt>, s: nat, t: nat)
    requires Distinct(NumbersOf(rows)) && s < |rows| && t < |rows| && s != t
    ensures ReconNumber(rows[s]) != ReconNumber(rows[t])
  {
    assert NumbersOf(rows)[s] != NumbersOf(rows)[t];
    assert ReconNumber(rows[s])[..|ReconNumber(rows[s])| - 4] == rows[s].number;
    assert ReconNumber(rows[t])[..|ReconNumber(rows[t])| - 4] == rows[t].number;
  }

  // ----- The run -----------------------------------------------------------

  /** A root is linked to its genesis event. */
  ghost predicate GenesisLinked(rows: seq<LegacyReceipt>, events: seq<LegacyEvent>, t: nat)
    requires t < |rows|
  {
    && rows[t].sourceEvent.Some? && rows[t].sourceEvent.value < |events|
    && events[rows[t].sourceEvent.value].key == GenesisKey(t)
  }

  ghost predicate AllLinked(rows: seq<LegacyReceipt>, events: seq<LegacyEvent>) {
    forall t: nat :: t < |rows| && rows[t].parent.None? ==> GenesisLinked(rows, events, t)
  }

  /** Only the backfill writes genesis keys. */
  ghost predicate GenesisGenuine(rows: seq<LegacyReceipt>, events: seq<LegacyEvent>) {
    forall e: nat :: e < |events| && events[e].key.GenesisKey? ==>
      && events[e].key.id < |rows| && events[e].kind == Deposited
      && events[e].quantity == rows[events[e].key.id].quantity
  }

  datatype Outcome = Completed | Aborted(negatives: seq<nat>) | Collided(at: nat)

  /** Nothing is left for a run to do. */
  ghost predicate Settled(rows: seq<LegacyReceipt>, rank: seq<nat>, events: seq<LegacyEvent>)
    requires Acyclic(ShapeOf(rows), rank)
  {
    && RootsRight(rows, rank) && Promoted(rows) && AllLinked(rows, events)
    && forall t: nat :: !Closable(rows, rank, events, t)
  }

  /** What step B leaves of the rows. */
  ghost predicate OnlyLinked(before: seq<LegacyReceipt>, after: seq<LegacyReceipt>) {
    && |after| == |before|
    && forall i: nat :: i < |before| ==>
         && after[i] == before[i].(sourceEvent := after[i].sourceEvent)
         && (before[i].parent.Some? ==> after[i] == before[i])
  }

  class Phase1Backfill {
    var receipts: seq<LegacyReceipt>
    var events: seq<LegacyEvent>
    const withdrawals: seq<LegacyWithdrawal>

    constructor (receipts: seq<LegacyReceipt>, events: seq<LegacyEvent>, withdrawals: seq<LegacyWithdrawal>)
      ensures this.receipts == receipts && this.events == events && this.withdrawals == withdrawals
    {
      this.receipts, this.events, this.withdrawals := receipts, events, withdrawals;
    }

    /** A1: only rows whose root column differs are written. */
    method SetRoots(ghost rank: seq<nat>)
      requires Acyclic(ShapeOf(receipts), rank)
      modifies this`receipts
      ensures |receipts| == |old(receipts)|
      ensures forall i: nat :: i < |receipts| ==> receipts[i] == Rooted(old(receipts), rank, i)
    {
      var rows := receipts;
      var chain := Chain(rows, rank);
      hide Top;
      for i := 0 to |rows|
        invariant |receipts| == |rows|
        invariant forall k: nat :: k < i ==> receipts[k] == Rooted(rows, rank, k)
        invariant forall k: nat :: i <= k < |rows| ==> receipts[k] == rows[k]
      {
        if receipts[i].root != Some(chain[i]) {
          receipts := receipts[i := receipts[i].(root := Some(chain[i]))];
        }
      }
    }

    /** A2: only parents not yet promoted are written. */
    method PromoteParents()
      modifies this`receipts
      ensures |receipts| == |old(receipts)|
      ensures forall p: nat :: p < |receipts| ==>
                receipts[p] == if HasChildren(old(receipts), p)
                               then old(receipts)[p].(isParent := true, status := SPLIT)
                               else old(receipts)[p]
    {
      hide HasChildren;
      var rows := receipts;
      for p := 0 to |rows|
        invariant |receipts| == |rows|
        invariant forall k: nat :: k < p ==>
                    receipts[k] == if HasChildren(rows, k) then rows[k].(isParent := true, status := SPLIT) else rows[k]
        invariant forall k: nat :: p <= k < |rows| ==> receipts[k] == rows[k]
      {
        if HasChildren(rows, p) && (!receipts[p].isParent || receipts[p].status != SPLIT) {
          receipts := receipts[p := receipts[p].(isParent := true, status := SPLIT)];
        }
      }
    }

    method StepA(ghost rank: seq<nat>)
      requires Acyclic(ShapeOf(receipts), rank)
      modifies this`receipts
      ensures |receipts| == |old(receipts)|
      ensures forall i: nat :: i < |receipts| ==> receipts[i] == Structured(old(receipts), rank, i)
    {
      hide Top, HasChildren;
      ghost var rows := receipts;
      SetRoots(rank);
      SameParentsSameChildren(rows, receipts);
      PromoteParents();
    }

    method FindEvent(key: LegacyKey) returns (e: nat)
      requires OnFile(events, key)
      ensures e < |events| && events[e].key == key
    {
      e := 0;
      while events[e].key != key
        invariant e < |events|
        invariant forall k :: 0 <= k < e ==> events[k].key != key
        decreases |events| - e
      {
        assert exists k :: e < k < |events| && events[k].key == key;
        e := e + 1;
      }
    }

    /** One genesis event per root that has none. */
    method InsertGenesis()
      requires GenesisGenuine(receipts, events) && Distinct(KeysOf(events))
      modifies this`events
      ensures old(events) <= events && GenesisGenuine(receipts, events) && Distinct(KeysOf(events))
      ensures forall key :: OnFile(events, key) <==>
                OnFile(old(events), key)
                || (key.GenesisKey? && key.id < |receipts| && receipts[key.id].parent.None?)
      ensures AllLinked(receipts, old(events)) ==> events == old(events)
    {
      hide OnFile, AllLinked;
      ghost var filed := events;
      for i := 0 to |receipts|
        invariant filed <= events
        invariant GenesisGenuine(receipts, events) && Distinct(KeysOf(events))
        invariant forall key :: OnFile(events, key) <==>
                    OnFile(filed, key) || (key.GenesisKey? && key.id < i && receipts[key.id].parent.None?)
        invariant AllLinked(receipts, filed) ==> events == filed
      {
        var key := GenesisKey(i);
        if receipts[i].parent.None? && !OnFile(events, key) {
          var ev := LegacyEvent(receipts[i].holding.tenant, i, i, Deposited, Some(DEPOSIT), None, receipts[i].quantity,
                                key);
          forall other
            ensures OnFile(events + [ev], other) <==> OnFile(events, other) || other == key
          {
            OneMoreOnFile(events, ev, other);
          }
          NotAllLinked(receipts, filed, i);
          NewKeyStaysDistinct(events, ev);
          events := events + [ev];
        }
      }
    }

    /** Only roots whose link differs are written. */
    method LinkGenesis()
      requires Distinct(KeysOf(events))
      requires forall t: nat :: t < |receipts| && receipts[t].parent.None? ==> OnFile(events, GenesisKey(t))
      modifies this`receipts
      ensures OnlyLinked(old(receipts), receipts) && AllLinked(receipts, events)
      ensures AllLinked(old(receipts), events) ==> receipts == old(receipts)
    {
      hide OnFile;
      var rows := receipts;
      for i := 0 to |rows|
        invariant OnlyLinked(rows, receipts)
        invariant forall t: nat :: t < i && rows[t].parent.None? ==> GenesisLinked(receipts, events, t)
        invariant forall t: nat :: i <= t < |rows| ==> receipts[t] == rows[t]
        invariant AllLinked(rows, events) ==> receipts == rows
      {
        if rows[i].parent.None? {
          var e := FindEvent(GenesisKey(i));
          LinkIsUnique(rows, events, i, e);
          if receipts[i].sourceEvent != Some(e) {
            receipts := receipts[i := receipts[i].(sourceEvent := Some(e))];
          }
        }
      }
    }

    /** One genesis event per root, and the link to it. */
    method StepB()
      requires GenesisGenuine(receipts, events) && Distinct(KeysOf(events))
      modifies this
      ensures OnlyLinked(old(receipts), receipts) && old(events) <= events
      ensures AllLinked(receipts, events) && GenesisGenuine(receipts, events) && Distinct(KeysOf(events))
      ensures forall key :: OnFile(events, key) <==>
                OnFile(old(events), key)
                || (key.GenesisKey? && key.id < |receipts| && receipts[key.id].parent.None?)
      ensures AllLinked(old(receipts), old(events)) ==> receipts == old(receipts) && events == old(events)
    {
      hide OnFile, AllLinked;
      InsertGenesis();
      LinkGenesis();
    }

    method FindMatch(t: nat, gap: int) returns (found: Option<nat>)
      ensures found == MatchFrom(receipts, withdrawals, t, gap, 0)
    {
      for k := 0 to |withdrawals|
        invariant MatchFrom(receipts, withdrawals, t, gap, 0) == MatchFrom(receipts, withdrawals, t, gap, k)
      {
        var w := withdrawals[k];
        if w.completed && w.receipt < |receipts| && receipts[w.receipt].root == Some(t) && w.quantity == gap {
          return Some(k);
        }
      }
      found := None;
    }

    /** The gaps are read once; each is closed in a transaction of its own. A root that
        weighs less than its leaves is passed over, and aborts the run at the end. */
    method StepC(ghost rank: seq<nat>) returns (outcome: Outcome, ghost deeper: seq<nat>)
      requires Acyclic(ShapeOf(receipts), rank) && RootsRight(receipts, rank) && Promoted(receipts)
      requires Distinct(NumbersOf(receipts)) && Distinct(KeysOf(events))
      modifies this
      ensures outcome.Collided? <==> NumberCollides(old(receipts), rank, old(events))
      ensures outcome.Collided?
             ==> outcome.at < |old(receipts)| && FirstCollision(old(receipts), rank, old(events), outcome.at)
      ensures Progressed(old(receipts), rank, old(events), receipts, deeper, events,
                         if outcome.Collided? then outcome.at else |old(receipts)|)
      ensures outcome.Completed? ==> forall t: nat :: !OverAllocated(old(receipts), rank, t)
      ensures outcome.Aborted? ==>
                outcome.negatives != [] && forall t: nat :: t in outcome.negatives <==>
                    OverAllocated(old(receipts), rank, t)
      ensures (forall t: nat :: !Closable(old(receipts), rank, old(events), t)) ==>
                receipts == old(receipts) && events == old(events) && deeper == rank
    {
      hide Progressed, HasChildren, RootsRight, Promoted, OnFile, NumberOnFile, Acyclic, FiledLeafSum, LeafSum,
           MatchFrom;
      var rows := receipts;
      ghost var filed := events;
      var gaps := seq(|rows|, t requires 0 <= t < |rows| => rows[t].quantity - FiledLeafSum(rows, t));
      var negatives: seq<nat> := [];
      deeper := rank;
      NotYetProgressed(rows, rank, events);
      for t := 0 to |rows|
        invariant Progressed(rows, rank, filed, receipts, deeper, events, t)
        invariant forall s: nat :: s in negatives <==> s < t && OverAllocated(rows, rank, s)
        invariant forall s: nat :: s < t && Closable(rows, rank, filed, s) ==> !NumberOnFile(rows, ReconNumber(rows[s]))
        invariant (forall s: nat :: !Closable(rows, rank, filed, s)) ==>
            receipts == rows && events == filed && deeper == rank
      {
        FiledIsLeafSum(rows, rank, t);
        ReconKeyUnchanged(rows, rank, filed, receipts, deeper, events, t);
        if rows[t].parent.Some? || gaps[t] == 0 {
          PassOver(rows, rank, filed, receipts, deeper, events, t);
        } else if gaps[t] < 0 {
          PassOver(rows, rank, filed, receipts, deeper, events, t);
          negatives := negatives + [t];
        } else if OnFile(events, ReconKey(t)) {
          PassOver(rows, rank, filed, receipts, deeper, events, t);
        } else {
          var gap := gaps[t];
          assert Closable(rows, rank, filed, t) && gap == Gap(rows, rank, t);
          var found := FindMatch(t, gap);
          RootStillThere(rows, rank, filed, receipts, deeper, events, t);
          var root := receipts[t];
          ReconNumberFree(rows, rank, filed, receipts, deeper, events, t);
          if NumberOnFile(receipts, ReconNumber(root)) {
            return Collided(t), deeper;
          }
          assert ReconNumber(root) == ReconNumber(rows[t]);
          CloseGap(rows, rank, filed, receipts, deeper, events, t, found);
          var child := ReconChild(root, t, gap, found, |events|);
          events := events + [ReconEvent(root, t, gap, found)];
          receipts := Attached(receipts, t, child);
          deeper := Deeper(deeper, t);
        }
      }
      outcome := if negatives == [] then Completed else Aborted(negatives);
    }

    /** A whole run, over any acyclic forest. It leaves the table backfilled, up to the
        first root whose reconciling child finds its number taken, if there is one; it
        aborts exactly over the roots that weigh less than their leaves; over a settled
        table it writes nothing. Another run may follow. */
    method Run(ghost rank: seq<nat>) returns (outcome: Outcome, ghost deeper: seq<nat>)
      requires Acyclic(ShapeOf(receipts), rank)
      requires Distinct(NumbersOf(receipts)) && Distinct(KeysOf(events)) && GenesisGenuine(receipts, events)
      modifies this
      ensures outcome.Collided? <==> NumberCollides(old(receipts), rank, old(events))
      ensures outcome.Collided?
             ==> outcome.at < |old(receipts)| && FirstCollision(old(receipts), rank, old(events), outcome.at)
      ensures Backfilled(old(receipts), rank, old(events), receipts, deeper, events,
                         if outcome.Collided? then outcome.at else |old(receipts)|)
      ensures outcome.Completed? ==> forall t: nat :: !OverAllocated(old(receipts), rank, t)
      ensures outcome.Aborted? ==>
                outcome.negatives != [] && forall t: nat :: t in outcome.negatives <==>
                    OverAllocated(old(receipts), rank, t)
      ensures Settled(old(receipts), rank, old(events)) ==>
                !outcome.Collided? && receipts == old(receipts) && events == old(events) && deeper == rank
    {
      hide RootsRight, Promoted, AllLinked, OnFile, Acyclic, OverAllocated, Closable, FirstCollision, Structured,
           OnlyLinked, NumberOnFile, NumberCollides, Progressed, Backfilled, Distinct;
      ghost var rows, filed := receipts, events;
      StepA(rank);
      ghost var structured := receipts;
      StructureKeepsLeaves(rows, rank, structured);
      StructureKeepsGenesis(rows, structured, rank, filed);
      StructureSettles(rows, rank, structured);
      StepB();
      ghost var linked, linkedEvents := receipts, events;
      LinkKeepsLeaves(structured, rank, linked);
      SameClosable(rows, rank, filed, linked, linkedEvents);
      SameNumbers(rows, rank, structured, linked);
      SameCollisions(rows, rank, filed, linked, linkedEvents);
      if Settled(rows, rank, filed) {
        SettledHasNothingOpen(rows, rank, filed);
      }
      outcome, deeper := StepC(rank);
      RunBackfills(rows, rank, filed, structured, linked, linkedEvents, receipts, deeper, events,
                   if outcome.Collided? then outcome.at else |rows|);
    }

    /** Two runs in a row: unless the first stopped at a taken number, the second finds
        nothing to write and ends as the first did. */
    method RunTwice(ghost rank: seq<nat>)
      returns (first: Outcome, second: Outcome, ghost rows: seq<LegacyReceipt>, ghost filed: seq<LegacyEvent>,
               ghost deeper: seq<nat>)
      requires Acyclic(ShapeOf(receipts), rank)
      requires Distinct(NumbersOf(receipts)) && Distinct(KeysOf(events)) && GenesisGenuine(receipts, events)
      modifies this
      ensures Backfilled(old(receipts), rank, old(events), rows, deeper, filed,
                         if first.Collided? then first.at else |old(receipts)|)
      ensures !first.Collided? ==> receipts == rows && events == filed
      ensures !first.Collided? ==>
                && (second.Completed? <==> first.Completed?) && (second.Aborted? <==> first.Aborted?)
                && (first.Aborted? ==> forall t: nat :: t in second.negatives <==> t in first.negatives)
    {
      hide Backfilled, OverAllocated, Settled, Acyclic, GenesisGenuine, Distinct, NumberCollides, FirstCollision;
      ghost var before, filedBefore := receipts, events;
      ghost var unused;
      first, deeper := Run(rank);
      rows, filed := receipts, events;
      ghost var bound := if first.Collided? then first.at else |before|;
      BackfilledMayRunAgain(before, rank, filedBefore, rows, deeper, filed, bound);
      if !first.Collided? {
        BackfilledIsSettled(before, rank, filedBefore, rows, deeper, filed);
        SameOverAllocated(before, rank, filedBefore, rows, deeper, filed);
      }
      second, unused := Run(deeper);
      if !first.Collided? {
        assert first.Aborted? ==> first.negatives[0] in first.negatives;
        assert second.Aborted? ==> second.negatives[0] in second.negatives;
      }
    }
  }

  /** What a run makes of a table that has come as far as root `t`. */
  ghost predicate Backfilled(rows: seq<LegacyReceipt>, rank: seq<nat>, events: seq<LegacyEvent>,
                             later: seq<LegacyReceipt>, laterRank: seq<nat>, laterEvents: seq<LegacyEvent>, t: nat)
    requires Acyclic(ShapeOf(rows), rank)
  {
    && t <= |rows| <= |later| && Acyclic(ShapeOf(later), laterRank)
    && RootsRight(later, laterRank) && Promoted(later)
    && AllLinked(later, laterEvents) && GenesisGenuine(later, laterEvents)
    && Distinct(NumbersOf(later)) && Distinct(KeysOf(laterEvents))
    && (forall i: nat :: i < |rows| ==> KeepsIdentity(rows[i], later[i]))
    && (forall i: nat :: i < |rows| ==> later[i].isParent == (rows[i].isParent || HasChildren(rows, i)))
    && (forall i: nat :: |rows| <= i < |later| ==> ReconChildOf(rows, rank, events, later[i], t))
    && (forall s: nat :: s < |rows| && rows[s].parent.None? ==>
          Gap(later, laterRank, s) == if s < t && Closable(rows, rank, events, s) then 0 else Gap(rows, rank, s))
    && (forall s: nat :: Closable(later, laterRank, laterEvents, s) <==> s >= t && Closable(rows, rank, events, s))
  }

  /** A row the run added: the child that closes the gap of a root below `t`. */
  ghost predicate ReconChildOf(rows: seq<LegacyReceipt>, rank: seq<nat>, events: seq<LegacyEvent>, r: LegacyReceipt,
                               t: nat)
    requires Acyclic(ShapeOf(rows), rank)
  {
    && r.parent.Some? && r.parent.value < t && Closable(rows, rank, events, r.parent.value)
    && r.quantity == Gap(rows, rank, r.parent.value) && r.number == ReconNumber(rows[r.parent.value])
    && !r.isParent
  }

  lemma BackfilledMayRunAgain(rows: seq<LegacyReceipt>, rank: seq<nat>, events: seq<LegacyEvent>,
                              later: seq<LegacyReceipt>, laterRank: seq<nat>, laterEvents: seq<LegacyEvent>, t: nat)
    requires Acyclic(ShapeOf(rows), rank) && Backfilled(rows, rank, events, later, laterRank, laterEvents, t)
    ensures Acyclic(ShapeOf(later), laterRank)
    ensures Distinct(NumbersOf(later)) && Distinct(KeysOf(laterEvents)) && GenesisGenuine(later, laterEvents)
  {
  }

  /** A run that went through leaves nothing for another one, over-allocated roots or not. */
  lemma BackfilledIsSettled(rows: seq<LegacyReceipt>, rank: seq<nat>, events: seq<LegacyEvent>,
                            later: seq<LegacyReceipt>, laterRank: seq<nat>, laterEvents: seq<LegacyEvent>)
    requires Acyclic(ShapeOf(rows), rank) && Backfilled(rows, rank, events, later, laterRank, laterEvents, |rows|)
    ensures Acyclic(ShapeOf(later), laterRank) && Settled(later, laterRank, laterEvents)
  {
    hide RootsRight, Promoted, AllLinked, GenesisGenuine, HasChildren, LeafSum, OnFile;
    forall s: nat
      ensures !Closable(later, laterRank, laterEvents, s)
    {
    }
  }

  /** No run makes or unmakes an over-allocated root. */
  lemma SameOverAllocated(rows: seq<LegacyReceipt>, rank: seq<nat>, events: seq<LegacyEvent>,
                          later: seq<LegacyReceipt>, laterRank: seq<nat>, laterEvents: seq<LegacyEvent>)
    requires Acyclic(ShapeOf(rows), rank) && Backfilled(rows, rank, events, later, laterRank, laterEvents, |rows|)
    ensures Acyclic(ShapeOf(later), laterRank)
    ensures forall s: nat :: OverAllocated(later, laterRank, s) <==> OverAllocated(rows, rank, s)
  {
    hide RootsRight, Promoted, AllLinked, GenesisGenuine, HasChildren, LeafSum, OnFile;
    forall s: nat
      ensures OverAllocated(later, laterRank, s) <==> OverAllocated(rows, rank, s)
    {
      if s < |rows| {
        assert KeepsIdentity(rows[s], later[s]);
      } else if s < |later| {
        assert ReconChildOf(rows, rank, events, later[s], |rows|);
      }
    }
  }

  /** The backfill never changes what a receipt is, only where it is filed and its flags. */
  ghost predicate KeepsIdentity(before: LegacyReceipt, after: LegacyReceipt) {
    after == before.(root := after.root, isParent := after.isParent, status := after.status,
                     sourceEvent := after.sourceEvent)
  }

  ghost predicate LeavesKept(rows: seq<LegacyReceipt>, rank: seq<nat>, later: seq<LegacyReceipt>)
    requires Acyclic(ShapeOf(rows), rank)
  {
    && |later| == |rows| && Acyclic(ShapeOf(later), rank)
    && (forall i: nat :: i < |rows| ==> KeepsIdentity(rows[i], later[i]))
    && (forall t: nat :: LeafSum(later, rank, t) == LeafSum(rows, rank, t))
  }

  lemma StructureKeepsLeaves(rows: seq<LegacyReceipt>, rank: seq<nat>, later: seq<LegacyReceipt>)
    requires Acyclic(ShapeOf(rows), rank) && |later| == |rows|
    requires forall i: nat :: i < |rows| ==> later[i] == Structured(rows, rank, i)
    ensures LeavesKept(rows, rank, later) && RootsRight(later, rank) && Promoted(later)
    ensures forall i: nat :: i < |rows| ==> later[i].isParent == (rows[i].isParent || HasChildren(rows, i))
  {
    SameLeaves(rows, later, rank, 0);
    forall t: nat
      ensures LeafSum(later, rank, t) == LeafSum(rows, rank, t)
    {
      SameLeaves(rows, later, rank, t);
    }
  }

  lemma StructureKeepsGenesis(rows: seq<LegacyReceipt>, later: seq<LegacyReceipt>, rank: seq<nat>,
                              events: seq<LegacyEvent>)
    requires Acyclic(ShapeOf(rows), rank) && LeavesKept(rows, rank, later) && GenesisGenuine(rows, events)
    ensures GenesisGenuine(later, events)
  {
    hide LeafSum;
  }

  lemma StructureSettles(rows: seq<LegacyReceipt>, rank: seq<nat>, later: seq<LegacyReceipt>)
    requires Acyclic(ShapeOf(rows), rank) && |later| == |rows|
    requires forall i: nat :: i < |rows| ==> later[i] == Structured(rows, rank, i)
    ensures RootsRight(rows, rank) && Promoted(rows) ==> later == rows
  {
    hide Top, HasChildren;
  }

  lemma LinkKeepsLeaves(rows: seq<LegacyReceipt>, rank: seq<nat>, later: seq<LegacyReceipt>)
    requires Acyclic(ShapeOf(rows), rank) && RootsRight(rows, rank) && Promoted(rows) && OnlyLinked(rows, later)
    ensures LeavesKept(rows, rank, later) && RootsRight(later, rank) && Promoted(later)
  {
    SameLeaves(rows, later, rank, 0);
    forall t: nat
      ensures LeafSum(later, rank, t) == LeafSum(rows, rank, t)
    {
      SameLeaves(rows, later, rank, t);
    }
  }

  /** Steps A and B neither open nor close a gap. */
  lemma SameClosable(rows: seq<LegacyReceipt>, rank: seq<nat>, events: seq<LegacyEvent>, later: seq<LegacyReceipt>,
                     laterEvents: seq<LegacyEvent>)
    requires Acyclic(ShapeOf(rows), rank) && |later| == |rows| && Acyclic(ShapeOf(later), rank)
    requires forall i: nat :: i < |rows| ==> KeepsIdentity(rows[i], later[i])
    requires forall t: nat :: LeafSum(later, rank, t) == LeafSum(rows, rank, t)
    requires forall key :: OnFile(laterEvents, key) <==>
               OnFile(events, key) || (key.GenesisKey? && key.id < |later| && later[key.id].parent.None?)
    ensures forall t: nat :: Closable(later, rank, laterEvents, t) <==> Closable(rows, rank, events, t)
    ensures forall t: nat :: OverAllocated(later, rank, t) <==> OverAllocated(rows, rank, t)
  {
    hide LeafSum, OnFile;
  }

  lemma SameNumbers(rows: seq<LegacyReceipt>, rank: seq<nat>, structured: seq<LegacyReceipt>,
                    linked: seq<LegacyReceipt>)
    requires Acyclic(ShapeOf(rows), rank) && LeavesKept(rows, rank, structured) && LeavesKept(structured, rank, linked)
    ensures NumbersOf(linked) == NumbersOf(rows)
    ensures forall t: nat :: t < |rows| ==> ReconNumber(linked[t]) == ReconNumber(rows[t])
    ensures forall number :: NumberOnFile(linked, number) <==> NumberOnFile(rows, number)
    ensures forall i: nat :: i < |rows| ==> KeepsIdentity(rows[i], linked[i])
    ensures forall t: nat :: LeafSum(linked, rank, t) == LeafSum(rows, rank, t)
  {
    hide LeafSum;
    forall i: nat | i < |rows|
      ensures linked[i].number == rows[i].number && KeepsIdentity(rows[i], linked[i])
    {
      assert KeepsIdentity(rows[i], structured[i]) && KeepsIdentity(structured[i], linked[i]);
    }
    forall number
      ensures NumberOnFile(linked, number) <==> NumberOnFile(rows, number)
    {
      if NumberOnFile(rows, number) {
        var i :| 0 <= i < |rows| && rows[i].number == number;
        assert linked[i].number == number;
      }
    }
  }

  lemma SameCollisions(rows: seq<LegacyReceipt>, rank: seq<nat>, events: seq<LegacyEvent>, later: seq<LegacyReceipt>,
                       laterEvents: seq<LegacyEvent>)
    requires Acyclic(ShapeOf(rows), rank) && |later| == |rows| && Acyclic(ShapeOf(later), rank)
    requires forall t: nat :: Closable(later, rank, laterEvents, t) <==> Closable(rows, rank, events, t)
    requires forall t: nat :: t < |rows| ==> ReconNumber(later[t]) == ReconNumber(rows[t])
    requires forall number :: NumberOnFile(later, number) <==> NumberOnFile(rows, number)
    ensures NumberCollides(later, rank, laterEvents) <==> NumberCollides(rows, rank, events)
    ensures forall at: nat :: FirstCollision(later, rank, laterEvents, at) <==> FirstCollision(rows, rank, events, at)
  {
    hide LeafSum, OnFile, NumberOnFile, ReconNumber;
  }

  lemma SettledHasNothingOpen(rows: seq<LegacyReceipt>, rank: seq<nat>, events: seq<LegacyEvent>)
    requires Acyclic(ShapeOf(rows), rank) && Settled(rows, rank, events)
    ensures !NumberCollides(rows, rank, events)
    ensures forall t: nat :: !Closable(rows, rank, events, t)
    ensures RootsRight(rows, rank) && Promoted(rows) && AllLinked(rows, events)
  {
  }

  lemma RunBackfills(rows: seq<LegacyReceipt>, rank: seq<nat>, events: seq<LegacyEvent>,
                     structured: seq<LegacyReceipt>, linked: seq<LegacyReceipt>, linkedEvents: seq<LegacyEvent>,
                     later: seq<LegacyReceipt>, laterRank: seq<nat>, laterEvents: seq<LegacyEvent>, t: nat)
    requires Acyclic(ShapeOf(rows), rank) && LeavesKept(rows, rank, structured) && LeavesKept(structured, rank, linked)
    requires forall i: nat :: i < |rows| ==> structured[i].isParent == (rows[i].isParent || HasChildren(rows, i))
    requires OnlyLinked(structured, linked) && RootsRight(linked, rank) && Promoted(linked)
    requires AllLinked(linked, linkedEvents) && GenesisGenuine(linked, linkedEvents)
    requires forall t: nat :: Closable(linked, rank, linkedEvents, t) <==> Closable(rows, rank, events, t)
    requires t <= |rows| && Progressed(linked, rank, linkedEvents, later, laterRank, laterEvents, t)
    ensures Backfilled(rows, rank, events, later, laterRank, laterEvents, t)
  {
    hide RootsRight, Promoted, OnFile, LeafSum, HasChildren;
    forall i: nat | i < |rows|
      ensures KeepsIdentity(rows[i], later[i]) && later[i].isParent == (rows[i].isParent || HasChildren(rows, i))
    {
      assert KeepsIdentity(rows[i], structured[i]) && KeepsIdentity(structured[i], linked[i]);
      if Closable(linked, rank, linkedEvents, i) {
        GapMeansParent(linked, rank, i);
      }
    }
    StaysGenuine(linked, linkedEvents, later, laterEvents);
    forall i: nat | |rows| <= i < |later|
      ensures ReconChildOf(rows, rank, events, later[i], t)
    {
      assert ClosesGap(linked, rank, linkedEvents, later[i], laterEvents, t);
      var p := later[i].parent.value;
      assert KeepsIdentity(rows[p], structured[p]) && KeepsIdentity(structured[p], linked[p]);
    }
    forall s: nat
      ensures Closable(later, laterRank, laterEvents, s) <==> s >= t && Closable(linked, rank, linkedEvents, s)
    {
      WhatStaysOpen(linked, rank, linkedEvents, later, laterRank, laterEvents, t, s);
    }
  }

  lemma StaysGenuine(rows: seq<LegacyReceipt>, events: seq<LegacyEvent>, later: seq<LegacyReceipt>,
                     laterEvents: seq<LegacyEvent>)
    requires GenesisGenuine(rows, events) && |rows| <= |later| && events <= laterEvents
    requires forall i: nat :: i < |rows| ==> later[i].quantity == rows[i].quantity
    requires forall e: nat :: |events| <= e < |laterEvents| ==> laterEvents[e].key.ReconKey?
    ensures GenesisGenuine(later, laterEvents)
  {
    forall e: nat | e < |laterEvents| && laterEvents[e].key.GenesisKey?
      ensures laterEvents[e].key.id < |later| && laterEvents[e].kind == Deposited
      ensures laterEvents[e].quantity == later[laterEvents[e].key.id].quantity
    {
      assert e < |events| && laterEvents[e] == events[e];
    }
  }

  /** The roots below `t` are closed by now, have their event on file, or were never too
      heavy; the others are as they were. */
  lemma WhatStaysOpen(rows: seq<LegacyReceipt>, rank: seq<nat>, events: seq<LegacyEvent>,
                      later: seq<LegacyReceipt>, laterRank: seq<nat>, laterEvents: seq<LegacyEvent>, t: nat, s: nat)
    requires Acyclic(ShapeOf(rows), rank) && Progressed(rows, rank, events, later, laterRank, laterEvents, t)
    ensures Closable(later, laterRank, laterEvents, s) <==> s >= t && Closable(rows, rank, events, s)
  {
    hide RootsRight, Promoted, OnFile, LeafSum, HasChildren;
    if s < |later| && s >= |rows| {
      assert ClosesGap(rows, rank, events, later[s], laterEvents, t);
    }
  }

  lemma NotAllLinked(rows: seq<LegacyReceipt>, events: seq<LegacyEvent>, t: nat)
    requires t < |rows| && rows[t].parent.None? && !OnFile(events, GenesisKey(t))
    ensures !AllLinked(rows, events)
  {
    assert !GenesisLinked(rows, events, t);
  }

  lemma LinkIsUnique(rows: seq<LegacyReceipt>, events: seq<LegacyEvent>, t: nat, e: nat)
    requires Distinct(KeysOf(events)) && t < |rows| && rows[t].parent.None?
    requires e < |events| && events[e].key == GenesisKey(t)
    ensures AllLinked(rows, events) ==> rows[t].sourceEvent == Some(e)
  {
    if AllLinked(rows, events) {
      assert GenesisLinked(rows, events, t);
      assert KeysOf(events)[e] == KeysOf(events)[rows[t].sourceEvent.value];
    }
  }

  lemma SameParentsSameChildren(rows: seq<LegacyReceipt>, later: seq<LegacyReceipt>)
    requires |later| == |rows| && forall i :: 0 <= i < |rows| ==> later[i].parent == rows[i].parent
    ensures forall p: nat :: p < |rows| ==> (HasChildren(later, p) <==> HasChildren(rows, p))
  {
    forall p: nat | p < |rows|
      ensures HasChildren(later, p) <==> HasChildren(rows, p)
    {
      if HasChildren(rows, p) {
        var c :| 0 <= c < |rows| && rows[c].parent == Some(p);
        assert later[c].parent == Some(p);
      }
    }
  }

  lemma NewKeyStaysDistinct(events: seq<LegacyEvent>, ev: LegacyEvent)
    requires Distinct(KeysOf(events)) && !OnFile(events, ev.key)
    ensures Distinct(KeysOf(events + [ev]))
  {
    assert KeysOf(events + [ev]) == KeysOf(events) + [ev.key];
  }

  lemma ReconKeyUnchanged(rows: seq<LegacyReceipt>, rank: seq<nat>, events: seq<LegacyEvent>,
                          later: seq<LegacyReceipt>, laterRank: seq<nat>, laterEvents: seq<LegacyEvent>, t: nat)
    requires Acyclic(ShapeOf(rows), rank) && Progressed(rows, rank, events, later, laterRank, laterEvents, t)
    ensures OnFile(laterEvents, ReconKey(t)) <==> OnFile(events, ReconKey(t))
  {
    hide OnFile, Closable, LeafSum, RootsRight, Promoted, ClosesGap;
  }

  lemma RootStillThere(rows: seq<LegacyReceipt>, rank: seq<nat>, events: seq<LegacyEvent>,
                       later: seq<LegacyReceipt>, laterRank: seq<nat>, laterEvents: seq<LegacyEvent>, t: nat)
    requires Acyclic(ShapeOf(rows), rank) && Progressed(rows, rank, events, later, laterRank, laterEvents, t)
    requires t < |rows|
    ensures t < |later| && later[t] == rows[t] && |laterRank| == |later|
  {
    hide OnFile, Closable, LeafSum, RootsRight, Promoted, ClosesGap;
  }
}
