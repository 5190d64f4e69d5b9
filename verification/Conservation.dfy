/** The main results about whole runs of the ledger: quantity is conserved in every
    tree, and no receipt comes back to life. */
module Conservation {
  import opened InventoryTypes
  import opened Mass
  import opened Forest
  import opened Ledger
  import opened LedgerInvariant

  function QuantityColumn(receipts: seq<Receipt>): seq<int> {
    Quantities(NodesOf(receipts))
  }

  /** The rows under a root that are not superseded, by their root column. */
  function LeavesOf(receipts: seq<Receipt>, t: nat): set<nat> {
    set i: nat | i < |receipts| && receipts[i].root == t && !receipts[i].isParent
  }

  lemma ParentsPrecede(receipts: seq<Receipt>)
    requires Lineage(receipts)
    ensures Acyclic(NodesOf(receipts), InsertionRank(|receipts|))
  {
    forall i: nat | i < |receipts| && receipts[i].parent.Some?
      ensures receipts[i].parent.value < i
    {
      assert LineageAt(receipts, i);
    }
  }

  /** The root column names the topmost ancestor. */
  lemma {:induction false} RootIsTop(receipts: seq<Receipt>, i: nat)
    requires Lineage(receipts) && i < |receipts|
    requires Acyclic(NodesOf(receipts), InsertionRank(|receipts|))
    ensures receipts[i].root == Top(NodesOf(receipts), InsertionRank(|receipts|), i)
  {
    assert LineageAt(receipts, i);
    if receipts[i].parent.Some? {
      RootIsTop(receipts, receipts[i].parent.value);
    }
  }

  /** The recursive query and the root column select the same leaves. */
  lemma LeavesOfAreLeavesBelow(receipts: seq<Receipt>, t: nat)
    requires Lineage(receipts) && t < |receipts| && receipts[t].parent.None?
    requires Acyclic(NodesOf(receipts), InsertionRank(|receipts|))
    ensures LeavesOf(receipts, t) == LeavesBelow(NodesOf(receipts), InsertionRank(|receipts|), t)
  {
    forall i: nat | i < |receipts|
      ensures i in LeavesOf(receipts, t) <==> i in LeavesBelow(NodesOf(receipts), InsertionRank(|receipts|), t)
    {
      RootIsTop(receipts, i);
      TopIsBelow(NodesOf(receipts), InsertionRank(|receipts|), t, i);
    }
  }

  lemma SoundTreesBalance(db: Db, t: nat)
    requires Sound(db) && t < |db.receipts| && db.receipts[t].parent.None?
    ensures Sum(QuantityColumn(db.receipts), LeavesOf(db.receipts, t)) == db.receipts[t].quantity
  {
    var nodes, rank := NodesOf(db.receipts), InsertionRank(|db.receipts|);
    ParentsPrecede(db.receipts);
    LeavesOfAreLeavesBelow(db.receipts, t);
    LeavesCarryTheWhole(nodes, rank, t);
  }

  /** Conservation over whole runs: after any calls with any arguments, every split
      row weighs what its direct children weigh, every tree's leaves weigh what its
      root weighs, and every root column is the topmost ancestor. */
  lemma RunConserves(calls: seq<Call>)
    ensures var receipts := Run(EMPTY_DB, calls).receipts;
            var nodes, rank := NodesOf(receipts), InsertionRank(|receipts|);
            && Acyclic(nodes, rank)
            && (forall p: nat :: p < |receipts| && receipts[p].status == SPLIT
                  ==> Kids(nodes, p) != {} && receipts[p].quantity == KidSum(nodes, p))
            && (forall t: nat :: t < |receipts| && receipts[t].parent.None?
                  ==> Sum(QuantityColumn(receipts), LeavesOf(receipts, t)) == receipts[t].quantity)
            && (forall i: nat :: i < |receipts| ==> receipts[i].root == Top(nodes, rank, i))
  {
    var db := Run(EMPTY_DB, calls);
    var receipts := db.receipts;
    EmptyIsSound();
    RunIsSound(EMPTY_DB, calls);
    ParentsPrecede(receipts);
    forall p: nat | p < |receipts| && receipts[p].status == SPLIT
      ensures Kids(NodesOf(receipts), p) != {} && receipts[p].quantity == KidSum(NodesOf(receipts), p)
    {
      assert RowRules(receipts[p]);
      assert NodesOf(receipts)[p].isParent;
    }
    forall t: nat | t < |receipts| && receipts[t].parent.None?
      ensures Sum(QuantityColumn(receipts), LeavesOf(receipts, t)) == receipts[t].quantity
    {
      SoundTreesBalance(db, t);
    }
    forall i: nat | i < |receipts|
      ensures receipts[i].root == Top(NodesOf(receipts), InsertionRank(|receipts|), i)
    {
      RootIsTop(receipts, i);
    }
  }

  /** Receipt numbers stay unique over every run, and a lineage keeps one base. */
  lemma RunKeepsNumbersUnique(calls: seq<Call>)
    ensures var receipts := Run(EMPTY_DB, calls).receipts;
            && (forall i, j :: 0 <= i < j < |receipts| ==> receipts[i].number != receipts[j].number)
            && (forall i: nat :: i < |receipts| ==> SharesBase(receipts, i))
  {
    EmptyIsSound();
    RunIsSound(EMPTY_DB, calls);
    var receipts := Run(EMPTY_DB, calls).receipts;
    forall i, j | 0 <= i < j < |receipts|
      ensures receipts[i].number != receipts[j].number
    {
      assert Numbers(receipts)[i] != Numbers(receipts)[j];
    }
  }

  // ----- No resurrection, no double spend ----------------------------------

  /** What time may do to one row: it never changes what the row is, and its status
      moves only down the ranks. */
  ghost predicate Ages(before: Receipt, after: Receipt) {
    && after == before.(status := after.status, approval := after.approval, client := after.client,
                        isParent := after.isParent)
    && (after.status == before.status || Rank(after.status) < Rank(before.status))
    && (before.isParent ==> after.isParent)
  }

  lemma ChangeAges(db: Db, change: Change, i: nat)
    requires LawfulChange(db, change) && i < |db.receipts|
    ensures var after := Changed(db.receipts, change);
            && |db.receipts| <= |after|
            && Ages(db.receipts[i], after[i])
            && (db.receipts[i].isParent && RowRules(db.receipts[i]) ==>
                  Kids(NodesOf(after), i) == Kids(NodesOf(db.receipts), i))
  {
    var after := Changed(db.receipts, change);
    if db.receipts[i].isParent {
      forall k: nat | |db.receipts| <= k < |after|
        ensures after[k].parent != Some(i)
      {
        assert after[k] == NewRows(change)[k - |db.receipts|];
      }
    }
  }

  lemma CallAges(db: Db, call: Call, i: nat)
    requires Sound(db) && i < |db.receipts|
    ensures var after := Invoke(db, call).db.receipts;
            && |db.receipts| <= |after|
            && Ages(db.receipts[i], after[i])
            && (db.receipts[i].isParent ==> Kids(NodesOf(after), i) == Kids(NodesOf(db.receipts), i))
  {
    CallWritesItsPlan(db, call);
    assert RowRules(db.receipts[i]);
    hide Sound, Plan, Collides, LawfulChange, LawfulNumbers, LawfulEvents, Invoke;
    if Invoke(db, call).db != db {
      ChangeAges(db, Plan(db, call).value.change, i);
    }
  }

  /** How often the status of row `i` changed while `calls` ran. */
  ghost function StatusChanges(db: Db, calls: seq<Call>, i: nat): nat
    requires Sound(db) && i < |db.receipts|
  {
    if calls == [] then 0
    else
      var before := Run(db, calls[..|calls| - 1]);
      var after := Run(db, calls);
      StatusChanges(db, calls[..|calls| - 1], i)
      + (if i < |before.receipts| && i < |after.receipts| && before.receipts[i].status != after.receipts[i].status
         then 1 else 0)
  }

  /** A run ages every row; a row changes status at most as often as its rank allows,
      so at most three times, and once split it never gains or loses a child. */
  lemma {:induction false} RunAges(db: Db, calls: seq<Call>, i: nat)
    requires Sound(db) && i < |db.receipts|
    ensures var after := Run(db, calls).receipts;
            && |db.receipts| <= |after|
            && Ages(db.receipts[i], after[i])
            && StatusChanges(db, calls, i) + Rank(after[i].status) <= Rank(db.receipts[i].status) <= 3
            && (db.receipts[i].isParent ==> Kids(NodesOf(after), i) == Kids(NodesOf(db.receipts), i))
  {
    if calls != [] {
      var front, last := calls[..|calls| - 1], calls[|calls| - 1];
      RunAges(db, front, i);
      RunIsSound(db, front);
      CallAges(Run(db, front), last, i);
      hide Invoke, Sound;
    }
  }
}
