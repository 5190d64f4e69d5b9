/** Trees of nodes that point at their parent, and the conservation of quantity in
    them. Nothing here knows how a tree was built: the ledger and the legacy
    backfill both use it. */
module Forest {
  import opened InventoryTypes
  import opened Mass

  datatype Node = Node(parent: Option<nat>, quantity: int, isParent: bool)

  function Quantities(nodes: seq<Node>): (column: seq<int>)
    ensures |column| == |nodes|
    ensures forall i :: 0 <= i < |nodes| ==> column[i] == nodes[i].quantity
  {
    seq(|nodes|, i requires 0 <= i < |nodes| => nodes[i].quantity)
  }

  /** The direct children of a node. */
  function Kids(nodes: seq<Node>, p: nat): set<nat> {
    set i: nat | i < |nodes| && nodes[i].parent == Some(p)
  }

  function KidSum(nodes: seq<Node>, p: nat): int {
    Sum(Quantities(nodes), Kids(nodes, p))
  }

  /** Parent pointers stay in the table and never form a cycle: `rank` grows from parent to child. */
  ghost predicate Acyclic(nodes: seq<Node>, rank: seq<nat>) {
    && |rank| == |nodes|
    && forall i :: 0 <= i < |nodes| && nodes[i].parent.Some? ==>
         var p := nodes[i].parent.value; p < |nodes| && rank[p] < rank[i]
  }

  /** Whether the recursive query started at `x` reaches `i`. */
  predicate Below(nodes: seq<Node>, ghost rank: seq<nat>, x: nat, i: nat)
    requires Acyclic(nodes, rank) && i < |nodes|
    decreases rank[i]
  {
    i == x || (nodes[i].parent.Some? && Below(nodes, rank, x, nodes[i].parent.value))
  }

  /** The topmost ancestor. */
  ghost function Top(nodes: seq<Node>, rank: seq<nat>, i: nat): (t: nat)
    requires Acyclic(nodes, rank) && i < |nodes|
    ensures t < |nodes| && nodes[t].parent == None
    decreases rank[i]
  {
    if nodes[i].parent.None? then i else Top(nodes, rank, nodes[i].parent.value)
  }

  lemma {:induction false} TopIsBelow(nodes: seq<Node>, rank: seq<nat>, x: nat, i: nat)
    requires Acyclic(nodes, rank) && i < |nodes|
    requires x < |nodes| && nodes[x].parent == None
    ensures Below(nodes, rank, x, i) <==> Top(nodes, rank, i) == x
    decreases rank[i]
  {
    if nodes[i].parent.Some? {
      TopIsBelow(nodes, rank, x, nodes[i].parent.value);
    }
  }

  lemma {:induction false} BelowRaisesRank(nodes: seq<Node>, rank: seq<nat>, x: nat, i: nat)
    requires Acyclic(nodes, rank) && i < |nodes| && Below(nodes, rank, x, i)
    ensures x < |nodes| && (i == x || rank[x] < rank[i])
    decreases rank[i]
  {
    if i != x {
      BelowRaisesRank(nodes, rank, x, nodes[i].parent.value);
    }
  }

  function Subtree(nodes: seq<Node>, ghost rank: seq<nat>, x: nat): set<nat>
    requires Acyclic(nodes, rank)
  {
    set i: nat | i < |nodes| && Below(nodes, rank, x, i)
  }

  /** The rows a reconciliation sums: `is_parent = false` inside the subtree. */
  function LeavesBelow(nodes: seq<Node>, ghost rank: seq<nat>, x: nat): set<nat>
    requires Acyclic(nodes, rank)
  {
    set i: nat | i < |nodes| && Below(nodes, rank, x, i) && !nodes[i].isParent
  }

  /** `isParent` is set exactly on the nodes that have children. */
  ghost predicate FlagsMatch(nodes: seq<Node>) {
    forall p: nat :: p < |nodes| ==> (nodes[p].isParent <==> Kids(nodes, p) != {})
  }

  /** Every node that has children equals the sum of its direct children. */
  ghost predicate LocallyBalanced(nodes: seq<Node>) {
    forall p: nat :: p < |nodes| && Kids(nodes, p) != {} ==> nodes[p].quantity == KidSum(nodes, p)
  }

  ghost function ParentsUpTo(nodes: seq<Node>, s: set<nat>, k: nat): set<nat>
  {
    set p: nat | p < k && p < |nodes| && p in s && Kids(nodes, p) != {}
  }

  ghost function NodesWithParentUpTo(nodes: seq<Node>, s: set<nat>, k: nat): set<nat>
  {
    set i: nat | i < |nodes| && nodes[i].parent.Some? && nodes[i].parent.value < k && nodes[i].parent.value in s
  }

  /** Counting the children of the parents in `s` two ways. */
  lemma {:induction false} ParentsWeighTheirKids(nodes: seq<Node>, s: set<nat>, k: nat)
    requires k <= |nodes|
    requires forall p: nat :: p < |nodes| && p in s && Kids(nodes, p) != {} ==> nodes[p].quantity == KidSum(nodes, p)
    ensures Sum(Quantities(nodes), ParentsUpTo(nodes, s, k))
         == Sum(Quantities(nodes), NodesWithParentUpTo(nodes, s, k))
  {
    var q := Quantities(nodes);
    if k == 0 {
      assert ParentsUpTo(nodes, s, 0) == {} == NodesWithParentUpTo(nodes, s, 0);
    } else {
      var p := k - 1;
      ParentsWeighTheirKids(nodes, s, p);
      if p in s && Kids(nodes, p) != {} {
        SumInsert(q, ParentsUpTo(nodes, s, p), p);
        SumUnion(q, NodesWithParentUpTo(nodes, s, p), Kids(nodes, p));
        assert ParentsUpTo(nodes, s, k) == ParentsUpTo(nodes, s, p) + {p};
        assert NodesWithParentUpTo(nodes, s, k) == NodesWithParentUpTo(nodes, s, p) + Kids(nodes, p);
      } else {
        assert ParentsUpTo(nodes, s, k) == ParentsUpTo(nodes, s, p);
        if p in s {
          assert forall i :: i !in Kids(nodes, p);
        }
        assert NodesWithParentUpTo(nodes, s, k) == NodesWithParentUpTo(nodes, s, p);
      }
    }
  }

  /** Local checks imply the global one, at every node of any finite forest: if in the
      subtree of `x` each parent weighs what its direct children weigh, the leaves
      below `x` weigh what `x` weighs. */
  lemma LeavesCarryTheWhole(nodes: seq<Node>, rank: seq<nat>, x: nat)
    requires Acyclic(nodes, rank) && x < |nodes|
    requires FlagsMatch(nodes)
    requires forall p: nat :: p in Subtree(nodes, rank, x) && Kids(nodes, p) != {} ==>
               nodes[p].quantity == KidSum(nodes, p)
    ensures Sum(Quantities(nodes), LeavesBelow(nodes, rank, x)) == nodes[x].quantity
  {
    var q, s := Quantities(nodes), Subtree(nodes, rank, x);
    var leaves, parents := LeavesBelow(nodes, rank, x), ParentsUpTo(nodes, s, |nodes|);
    ParentsWeighTheirKids(nodes, s, |nodes|);
    forall i: nat | i < |nodes|
      ensures i in NodesWithParentUpTo(nodes, s, |nodes|) <==> i in s - {x}
    {
      if nodes[i].parent.Some? && nodes[i].parent.value in s {
        BelowRaisesRank(nodes, rank, x, nodes[i].parent.value);
      }
    }
    assert NodesWithParentUpTo(nodes, s, |nodes|) == s - {x};
    SumRemove(q, s, x);
    SumUnion(q, leaves, parents);
    assert leaves + parents == s;
  }

  /** A table grown by minting and splitting: parents come before their children,
      every quantity is positive, and every parent weighs what its children weigh. */
  ghost predicate Conserved(nodes: seq<Node>) {
    && (forall i :: 0 <= i < |nodes| ==> nodes[i].quantity > 0)
    && (forall i :: 0 <= i < |nodes| && nodes[i].parent.Some? ==> nodes[i].parent.value < i)
    && FlagsMatch(nodes)
    && LocallyBalanced(nodes)
  }

  lemma PushOutsideKids(nodes: seq<Node>, node: Node, p: nat)
    requires node.parent != Some(p)
    ensures Kids(nodes + [node], p) == Kids(nodes, p)
    ensures KidSum(nodes + [node], p) == KidSum(nodes, p)
  {
    SumPush(Quantities(nodes), node.quantity, Kids(nodes, p));
    assert Quantities(nodes + [node]) == Quantities(nodes) + [node.quantity];
    assert Kids(nodes + [node], p) == Kids(nodes, p);
  }

  lemma PushKid(nodes: seq<Node>, node: Node, p: nat)
    requires node.parent == Some(p)
    ensures Kids(nodes + [node], p) == Kids(nodes, p) + {|nodes|}
    ensures KidSum(nodes + [node], p) == KidSum(nodes, p) + node.quantity
  {
    var q := Quantities(nodes);
    assert Quantities(nodes + [node]) == q + [node.quantity];
    assert Kids(nodes + [node], p) == Kids(nodes, p) + {|nodes|};
    SumPush(q, node.quantity, Kids(nodes, p) + {|nodes|});
    SumAgree(q, Kids(nodes, p) + {|nodes|}, Kids(nodes, p));
  }

  lemma MintConserves(nodes: seq<Node>, node: Node)
    requires Conserved(nodes)
    requires node.parent == None && !node.isParent && node.quantity > 0
    ensures Conserved(nodes + [node])
  {
    forall p: nat { PushOutsideKids(nodes, node, p); }
    assert Kids(nodes, |nodes|) == {};
  }

  /** The table after `at` was split into one or two kids. */
  function AfterSplit(nodes: seq<Node>, at: nat, kids: seq<Node>): seq<Node>
    requires at < |nodes|
  {
    nodes[at := nodes[at].(isParent := true)] + kids
  }

  ghost predicate SplitsExactly(nodes: seq<Node>, at: nat, kids: seq<Node>) {
    && at < |nodes| && !nodes[at].isParent
    && (forall k :: 0 <= k < |kids| ==> kids[k].parent == Some(at) && !kids[k].isParent && kids[k].quantity > 0)
    && (|kids| == 1 || |kids| == 2)
    && nodes[at].quantity == kids[0].quantity + (if |kids| == 2 then kids[1].quantity else 0)
  }

  /** What a split does to the children of every node. */
  lemma SplitKids(nodes: seq<Node>, at: nat, kids: seq<Node>)
    requires SplitsExactly(nodes, at, kids) && Kids(nodes, at) == {}
    ensures var after := AfterSplit(nodes, at, kids);
            && |nodes| in Kids(after, at) && KidSum(after, at) == nodes[at].quantity
            && forall p: nat :: p != at ==> Kids(after, p) == Kids(nodes, p) && KidSum(after, p) == KidSum(nodes, p)
  {
    hide Sum;
    var marked, n := nodes[at := nodes[at].(isParent := true)], |nodes|;
    var one := marked + [kids[0]];
    var after := AfterSplit(nodes, at, kids);
    assert Quantities(marked) == Quantities(nodes);
    assert forall p: nat :: Kids(marked, p) == Kids(nodes, p);
    assert after == if |kids| == 2 then one + [kids[1]] else one;
    assert KidSum(nodes, at) == 0 by { SumEmpty(Quantities(nodes), {}); }
    PushKid(marked, kids[0], at);
    if |kids| == 2 { PushKid(one, kids[1], at); }
    forall p: nat | p != at
      ensures Kids(after, p) == Kids(nodes, p) && KidSum(after, p) == KidSum(nodes, p)
    {
      PushOutsideKids(marked, kids[0], p);
      if |kids| == 2 { PushOutsideKids(one, kids[1], p); }
    }
  }

  lemma SplitConserves(nodes: seq<Node>, at: nat, kids: seq<Node>)
    requires Conserved(nodes) && SplitsExactly(nodes, at, kids)
    ensures Conserved(AfterSplit(nodes, at, kids))
  {
    hide KidSum;
    var n, after := |nodes|, AfterSplit(nodes, at, kids);
    assert Kids(nodes, at) == {};
    SplitKids(nodes, at, kids);
    assert forall p: nat :: n <= p ==> Kids(nodes, p) == {};
    forall i | 0 <= i < |after|
      ensures after[i].quantity > 0
      ensures after[i].parent.Some? ==> after[i].parent.value < i
    {
      if i >= n { assert after[i] == kids[i - n]; }
    }
  }

  /** Insertion order ranks a table whose parents precede their children. */
  function InsertionRank(n: nat): (rank: seq<nat>)
    ensures |rank| == n && forall i :: 0 <= i < n ==> rank[i] == i
  {
    seq(n, i => i)
  }
}
