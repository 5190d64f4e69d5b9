/** The gate after the backfill (prisma/backfill/phase1-verify.ts): its four checks, and
    exactly when a backfilled table passes them. */
module BackfillGate {
  import opened InventoryTypes
  import opened Mass
  import opened Sequences
  import opened Forest
  import opened Backfill

  /** (1) Every row has a root. */
  predicate RootsFilled(rows: seq<LegacyReceipt>) {
    forall i :: 0 <= i < |rows| ==> rows[i].root.Some?
  }

  /** (2) Every flagged parent that has children weighs what they weigh. */
  predicate ParentsBalance(rows: seq<LegacyReceipt>) {
    forall p :: 0 <= p < |rows| && rows[p].isParent && HasChildren(rows, p) ==>
        rows[p].quantity == KidSum(ShapeOf(rows), p)
  }

  /** (3) Every root some row is filed under weighs what the leaves filed under it weigh. */
  predicate RootsBalance(rows: seq<LegacyReceipt>) {
    forall i :: 0 <= i < |rows| && rows[i].root.Some? && rows[i].root.value < |rows| ==>
      rows[rows[i].root.value].quantity == FiledLeafSum(rows, rows[i].root.value)
  }

  /** (4) Every root is linked to a genesis event of its quantity. */
  predicate GenesisHolds(rows: seq<LegacyReceipt>, events: seq<LegacyEvent>) {
    forall t :: 0 <= t < |rows| && rows[t].parent.None? ==>
      && rows[t].sourceEvent.Some? && rows[t].sourceEvent.value < |events|
      && events[rows[t].sourceEvent.value].kind == Deposited
      && events[rows[t].sourceEvent.value].quantity == rows[t].quantity
  }

  /** The gate lists the checks that fail. */
  method Verify(rows: seq<LegacyReceipt>, events: seq<LegacyEvent>) returns (failures: seq<nat>)
    ensures 1 in failures <==> !RootsFilled(rows)
    ensures 2 in failures <==> !ParentsBalance(rows)
    ensures 3 in failures <==> !RootsBalance(rows)
    ensures 4 in failures <==> !GenesisHolds(rows, events)
    ensures failures == []
           <==> RootsFilled(rows) && ParentsBalance(rows) && RootsBalance(rows) && GenesisHolds(rows, events)
  {
    hide RootsFilled, ParentsBalance, RootsBalance, GenesisHolds;
    failures := [];
    if !RootsFilled(rows) {
      failures := failures + [1];
    }
    if !ParentsBalance(rows) {
      failures := failures + [2];
    }
    if !RootsBalance(rows) {
      failures := failures + [3];
    }
    if !GenesisHolds(rows, events) {
      failures := failures + [4];
    }
  }

  /** A root whose tree the backfill leaves balanced. */
  ghost predicate Reconcilable(rows: seq<LegacyReceipt>, rank: seq<nat>, events: seq<LegacyEvent>, t: nat)
    requires Acyclic(ShapeOf(rows), rank) && t < |rows|
  {
    Gap(rows, rank, t) == 0 || Closable(rows, rank, events, t)
  }

  /** After a run, checks (1) and (4) hold of any forest, and check (3) exactly if every
      root weighed what its leaves weighed, or more and was not reconciled before. */
  lemma GateAfterRun(rows: seq<LegacyReceipt>, rank: seq<nat>, events: seq<LegacyEvent>,
                     later: seq<LegacyReceipt>, laterRank: seq<nat>, laterEvents: seq<LegacyEvent>)
    requires Acyclic(ShapeOf(rows), rank) && Backfilled(rows, rank, events, later, laterRank, laterEvents, |rows|)
    ensures RootsFilled(later) && GenesisHolds(later, laterEvents)
    ensures RootsBalance(later) <==>
              forall t: nat :: t < |rows| && rows[t].parent.None? ==> Reconcilable(rows, rank, events, t)
  {
    RootsAndGenesis(rows, rank, events, later, laterRank, laterEvents);
    hide Closable, LeafSum, HasChildren, FiledLeafSum, AllLinked, GenesisGenuine, Promoted;
    forall t: nat | t < |rows| && rows[t].parent.None?
      ensures later[t].root == Some(t)
      ensures later[t].quantity == FiledLeafSum(later, t) <==> Reconcilable(rows, rank, events, t)
    {
      OpenGapIsPositive(rows, rank, events, t);
      FiledIsLeafSum(later, laterRank, t);
      assert KeepsIdentity(rows[t], later[t]);
    }
    forall i: nat | i < |later|
      ensures later[i].root.Some? && later[i].root.value < |rows| && rows[later[i].root.value].parent.None?
    {
      RootIsAnOldRoot(rows, rank, events, later, laterRank, laterEvents, i);
    }
  }

  lemma OpenGapIsPositive(rows: seq<LegacyReceipt>, rank: seq<nat>, events: seq<LegacyEvent>, t: nat)
    requires Acyclic(ShapeOf(rows), rank)
    ensures Closable(rows, rank, events, t) ==> t < |rows| && rows[t].parent.None? && Gap(rows, rank, t) > 0
  {
  }

  lemma RootIsAnOldRoot(rows: seq<LegacyReceipt>, rank: seq<nat>, events: seq<LegacyEvent>,
                        later: seq<LegacyReceipt>, laterRank: seq<nat>, laterEvents: seq<LegacyEvent>, i: nat)
    requires Acyclic(ShapeOf(rows), rank) && Backfilled(rows, rank, events, later, laterRank, laterEvents, |rows|)
    requires i < |later|
    ensures later[i].root.Some? && later[i].root.value < |rows| && rows[later[i].root.value].parent.None?
  {
    hide Closable, LeafSum, HasChildren;
    var t := Top(ShapeOf(later), laterRank, i);
    assert later[t].parent.None?;
    assert KeepsIdentity(rows[t], later[t]);
  }

  lemma RootsAndGenesis(rows: seq<LegacyReceipt>, rank: seq<nat>, events: seq<LegacyEvent>,
                        later: seq<LegacyReceipt>, laterRank: seq<nat>, laterEvents: seq<LegacyEvent>)
    requires Acyclic(ShapeOf(rows), rank) && Backfilled(rows, rank, events, later, laterRank, laterEvents, |rows|)
    ensures RootsFilled(later) && GenesisHolds(later, laterEvents)
  {
    hide Closable, LeafSum, HasChildren, Gap;
    forall t: nat | t < |later| && later[t].parent.None?
      ensures later[t].sourceEvent.Some? && later[t].sourceEvent.value < |laterEvents|
      ensures laterEvents[later[t].sourceEvent.value].kind == Deposited
      ensures laterEvents[later[t].sourceEvent.value].quantity == later[t].quantity
    {
      assert GenesisLinked(later, laterEvents, t);
    }
  }

  // ----- Check (2) ---------------------------------------------------------

  /** Legacy flags are honest if only rows with children carry them. */
  ghost predicate FlagsHonest(rows: seq<LegacyReceipt>) {
    forall p: nat :: p < |rows| && rows[p].isParent ==> HasChildren(rows, p)
  }

  lemma {:induction false} SumExtends(column: seq<int>, more: seq<int>, picked: set<nat>)
    requires forall i :: i in picked ==> i < |column|
    ensures Sum(column + more, picked) == Sum(column, picked)
  {
    if more == [] {
      assert column + more == column;
    } else {
      var n := |more| - 1;
      SumExtends(column, more[..n], picked);
      SumPush(column + more[..n], more[n], picked);
      assert column + more == column + more[..n] + [more[n]];
    }
  }

  lemma ChildrenAreKids(rows: seq<LegacyReceipt>, p: nat)
    ensures HasChildren(rows, p) <==> Kids(ShapeOf(rows), p) != {}
  {
    if HasChildren(rows, p) {
      var c :| 0 <= c < |rows| && rows[c].parent == Some(p);
      assert c in Kids(ShapeOf(rows), p);
    }
    if c :| c in Kids(ShapeOf(rows), p) {
      assert rows[c].parent == Some(p);
    }
  }

  /** No run changes the children of a row that is not a root. */
  lemma InnerChildrenStay(rows: seq<LegacyReceipt>, rank: seq<nat>, events: seq<LegacyEvent>,
                          later: seq<LegacyReceipt>, laterRank: seq<nat>, laterEvents: seq<LegacyEvent>, p: nat)
    requires Acyclic(ShapeOf(rows), rank) && Backfilled(rows, rank, events, later, laterRank, laterEvents, |rows|)
    requires p < |rows| && rows[p].parent.Some?
    ensures Kids(ShapeOf(later), p) == Kids(ShapeOf(rows), p) && KidSum(ShapeOf(later), p) == KidSum(ShapeOf(rows), p)
  {
    hide LeafSum, HasChildren, RootsRight, Promoted, AllLinked, GenesisGenuine;
    forall i: nat | i < |later|
      ensures i in Kids(ShapeOf(later), p) <==> i in Kids(ShapeOf(rows), p)
    {
      if i < |rows| {
        assert KeepsIdentity(rows[i], later[i]);
      } else {
        OpenGapIsPositive(rows, rank, events, later[i].parent.value);
      }
    }
    assert Kids(ShapeOf(later), p) == Kids(ShapeOf(rows), p);
    var column, longer := Quantities(ShapeOf(rows)), Quantities(ShapeOf(later));
    forall i: nat | i < |rows|
      ensures longer[i] == column[i]
    {
      assert KeepsIdentity(rows[i], later[i]);
    }
    assert longer == column + longer[|rows|..];
    SumExtends(column, longer[|rows|..], Kids(ShapeOf(rows), p));
  }

  /** After a run over honest flags, the flags say exactly who has children. */
  lemma FlagsMatchAfterRun(rows: seq<LegacyReceipt>, rank: seq<nat>, events: seq<LegacyEvent>,
                           later: seq<LegacyReceipt>, laterRank: seq<nat>, laterEvents: seq<LegacyEvent>)
    requires Acyclic(ShapeOf(rows), rank) && Backfilled(rows, rank, events, later, laterRank, laterEvents, |rows|)
    requires FlagsHonest(rows)
    ensures FlagsMatch(ShapeOf(later))
  {
    hide LeafSum, RootsRight, AllLinked, GenesisGenuine, Gap, Closable;
    forall p: nat | p < |later|
      ensures later[p].isParent <==> Kids(ShapeOf(later), p) != {}
    {
      ChildrenAreKids(later, p);
      if p < |rows| {
        if later[p].isParent {
          var c :| 0 <= c < |rows| && rows[c].parent == Some(p);
          assert KeepsIdentity(rows[c], later[c]);
        }
      } else {
        forall c: nat | c < |later|
          ensures later[c].parent != Some(p)
        {
          if c < |rows| {
            assert KeepsIdentity(rows[c], later[c]) && ShapeOf(rows)[c].parent == rows[c].parent;
          } else {
            OpenGapIsPositive(rows, rank, events, later[c].parent.value);
          }
        }
      }
    }
  }

  /** If everything strictly below a root balances, its leaves weigh what its direct
      children weigh. */
  lemma LeavesWeighTheKids(rows: seq<LegacyReceipt>, rank: seq<nat>, t: nat)
    requires Acyclic(ShapeOf(rows), rank) && Promoted(rows) && FlagsMatch(ShapeOf(rows))
    requires t < |rows| && rows[t].parent.None? && rows[t].isParent
    requires forall p: nat :: p < |rows| && rows[p].parent.Some? && HasChildren(rows, p) ==>
               rows[p].quantity == KidSum(ShapeOf(rows), p)
    ensures LeafSum(rows, rank, t) == KidSum(ShapeOf(rows), t)
  {
    var nodes := ShapeOf(rows);
    var weighed := nodes[t := nodes[t].(quantity := KidSum(nodes, t))];
    forall p: nat | p < |rows|
      ensures Kids(weighed, p) == Kids(nodes, p) && KidSum(weighed, p) == KidSum(nodes, p)
    {
      SameSum(Quantities(weighed), Quantities(nodes), Kids(nodes, p));
    }
    hide KidSum;
    forall p: nat | p in Subtree(weighed, rank, t) && Kids(weighed, p) != {}
      ensures weighed[p].quantity == KidSum(weighed, p)
    {
      if p != t {
        ChildrenAreKids(rows, p);
        assert weighed[p].parent.Some?;
      }
    }
    LeavesCarryTheWhole(weighed, rank, t);
    assert LeavesBelow(weighed, rank, t) == LeavesUnder(rows, rank, t) by { SameLeavesBelow(rows, rank, t, weighed); }
    SameSum(Quantities(weighed), Quantities(nodes), LeavesUnder(rows, rank, t));
  }

  lemma {:induction false} SameSum(a: seq<int>, b: seq<int>, picked: set<nat>)
    requires |a| == |b| && forall i: nat :: i < |a| && i in picked ==> a[i] == b[i]
    ensures Sum(a, picked) == Sum(b, picked)
  {
    if a != [] {
      SameSum(a[..|a| - 1], b[..|b| - 1], picked);
    }
  }

  lemma SameLeavesBelow(rows: seq<LegacyReceipt>, rank: seq<nat>, t: nat, weighed: seq<Forest.Node>)
    requires Acyclic(ShapeOf(rows), rank) && FlagsMatch(ShapeOf(rows)) && t < |rows| && rows[t].parent.None?
    requires |weighed| == |rows| && Acyclic(weighed, rank)
    requires forall i: nat :: i < |rows| ==>
               weighed[i].parent == rows[i].parent && weighed[i].isParent == rows[i].isParent
    ensures LeavesBelow(weighed, rank, t) == LeavesUnder(rows, rank, t)
  {
    hide KidSum;
    forall i: nat | i < |rows|
      ensures i in LeavesBelow(weighed, rank, t) <==> i in LeavesUnder(rows, rank, t)
    {
      TopIsBelow(weighed, rank, t, i);
      TopFollowsParents(ShapeOf(rows), weighed, rank, rank, i);
      ChildrenAreKids(rows, i);
    }
  }

  /** Over honest flags and reconcilable roots, check (2) holds after the run exactly if
      the parents that are not roots balanced before it. */
  lemma ParentsBalanceAfterRun(rows: seq<LegacyReceipt>, rank: seq<nat>, events: seq<LegacyEvent>,
                               later: seq<LegacyReceipt>, laterRank: seq<nat>, laterEvents: seq<LegacyEvent>)
    requires Acyclic(ShapeOf(rows), rank) && Backfilled(rows, rank, events, later, laterRank, laterEvents, |rows|)
    requires FlagsHonest(rows)
    requires forall t: nat :: t < |rows| && rows[t].parent.None? ==> Reconcilable(rows, rank, events, t)
    ensures ParentsBalance(later) <==>
              forall p: nat :: p < |rows| && rows[p].parent.Some? && HasChildren(rows, p) ==>
                  rows[p].quantity == KidSum(ShapeOf(rows), p)
  {
    FlagsMatchAfterRun(rows, rank, events, later, laterRank, laterEvents);
    hide LeafSum, RootsRight, AllLinked, GenesisGenuine, KidSum, HasChildren, Closable;
    forall p: nat | p < |rows| && rows[p].parent.Some?
      ensures HasChildren(later, p) <==> HasChildren(rows, p)
      ensures KidSum(ShapeOf(later), p) == KidSum(ShapeOf(rows), p)
      ensures later[p].quantity == rows[p].quantity && later[p].parent.Some?
      ensures HasChildren(rows, p) ==> later[p].isParent
    {
      InnerChildrenStay(rows, rank, events, later, laterRank, laterEvents, p);
      ChildrenAreKids(rows, p);
      ChildrenAreKids(later, p);
      assert KeepsIdentity(rows[p], later[p]);
    }
    if forall p: nat :: p < |rows| && rows[p].parent.Some? && HasChildren(rows, p) ==>
        rows[p].quantity == KidSum(ShapeOf(rows), p) {
      forall p: nat | p < |later| && later[p].parent.Some? && HasChildren(later, p)
        ensures p < |rows| && later[p].quantity == KidSum(ShapeOf(later), p)
      {
        ChildrenAreKids(later, p);
        if p < |rows| {
          assert KeepsIdentity(rows[p], later[p]);
        }
      }
      forall p: nat | p < |later| && later[p].isParent && HasChildren(later, p)
        ensures later[p].quantity == KidSum(ShapeOf(later), p)
      {
        if later[p].parent.None? {
          assert KeepsIdentity(rows[p], later[p]);
          LeavesWeighTheKids(later, laterRank, p);
          RootIsClosed(rows, rank, events, later, laterRank, laterEvents, p);
        }
      }
    }
  }

  lemma RootIsClosed(rows: seq<LegacyReceipt>, rank: seq<nat>, events: seq<LegacyEvent>,
                     later: seq<LegacyReceipt>, laterRank: seq<nat>, laterEvents: seq<LegacyEvent>, t: nat)
    requires Acyclic(ShapeOf(rows), rank) && Backfilled(rows, rank, events, later, laterRank, laterEvents, |rows|)
    requires t < |rows| && rows[t].parent.None? && Reconcilable(rows, rank, events, t)
    ensures later[t].quantity == LeafSum(later, laterRank, t)
  {
    hide LeafSum, RootsRight, AllLinked, GenesisGenuine, HasChildren;
  }

  // ----- A run that stops --------------------------------------------------

  function LegacyRow(number: string, quantity: int, parent: Option<nat>): LegacyReceipt {
    LegacyReceipt(number, ACTIVE, APPROVED, Holding("t", "maize", "w", "c"), quantity, parent, None, false, None, None,
                  None)
  }

  /** Nothing keeps a legacy receipt from carrying the number of a reconciling child: here
      the first root lacks 6 of its 10, and a second root has the number its child needs. */
  lemma TakenNumberStopsTheRun()
    ensures var rows := [LegacyRow("WR-1", 10, None), LegacyRow("WR-1-A", 4, Some(0)), LegacyRow("WR-1-RCN", 1, None)];
            && Acyclic(ShapeOf(rows), [0, 1, 0])
            && Distinct(NumbersOf(rows))
            && FirstCollision(rows, [0, 1, 0], [], 0)
            && NumberCollides(rows, [0, 1, 0], [])
  {
    var rows := [LegacyRow("WR-1", 10, None), LegacyRow("WR-1-A", 4, Some(0)), LegacyRow("WR-1-RCN", 1, None)];
    var rank: seq<nat> := [0, 1, 0];
    assert rows[1].parent == Some(0);
    assert HasChildren(rows, 0) && !HasChildren(rows, 1);
    assert Top(ShapeOf(rows), rank, 0) == 0 && Top(ShapeOf(rows), rank, 1) == 0 && Top(ShapeOf(rows), rank, 2) == 2;
    assert LeavesUnder(rows, rank, 0) == {1};
    SumSingle(Quantities(ShapeOf(rows)), 1);
    assert Gap(rows, rank, 0) == 6;
    assert ReconNumber(rows[0]) == rows[2].number;
  }
}
