/** Sums over the rows of a table: the SQL `SUM(quantity)` over a selection of row
    positions. The selection is a set, so equal selections give equal sums. */
module Mass {

  function Sum(column: seq<int>, picked: set<nat>): int {
    if column == [] then 0
    else
      var n := |column| - 1;
      Sum(column[..n], picked) + (if n in picked then column[n] else 0)
  }

  lemma SumPush(column: seq<int>, x: int, picked: set<nat>)
    ensures Sum(column + [x], picked) == Sum(column, picked) + (if |column| in picked then x else 0)
  {
    assert (column + [x])[..|column|] == column;
  }

  lemma {:induction false} SumEmpty(column: seq<int>, picked: set<nat>)
    requires forall i: nat :: i < |column| ==> i !in picked
    ensures Sum(column, picked) == 0
  {
    if column != [] {
      SumEmpty(column[..|column| - 1], picked);
    }
  }

  lemma {:induction false} SumSingle(column: seq<int>, i: nat)
    requires i < |column|
    ensures Sum(column, {i}) == column[i]
  {
    var n := |column| - 1;
    if i < n {
      SumSingle(column[..n], i);
    } else {
      SumEmpty(column[..n], {i});
    }
  }

  lemma {:induction false} SumUnion(column: seq<int>, a: set<nat>, b: set<nat>)
    requires a !! b
    ensures Sum(column, a + b) == Sum(column, a) + Sum(column, b)
  {
    if column != [] {
      SumUnion(column[..|column| - 1], a, b);
    }
  }

  /** Moving one row out of a selection. */
  lemma SumRemove(column: seq<int>, picked: set<nat>, i: nat)
    requires i < |column| && i in picked
    ensures Sum(column, picked - {i}) == Sum(column, picked) - column[i]
  {
    SumUnion(column, picked - {i}, {i});
    SumSingle(column, i);
    assert picked - {i} + {i} == picked;
  }

  lemma SumInsert(column: seq<int>, picked: set<nat>, i: nat)
    requires i < |column| && i !in picked
    ensures Sum(column, picked + {i}) == Sum(column, picked) + column[i]
  {
    SumUnion(column, picked, {i});
    SumSingle(column, i);
  }

  /** Only positions inside the column matter. */
  lemma {:induction false} SumAgree(column: seq<int>, a: set<nat>, b: set<nat>)
    requires forall i: nat :: i < |column| ==> (i in a <==> i in b)
    ensures Sum(column, a) == Sum(column, b)
  {
    if column != [] {
      SumAgree(column[..|column| - 1], a, b);
    }
  }

  lemma {:induction false} SumNonnegative(column: seq<int>, picked: set<nat>)
    requires forall i: nat :: i < |column| && i in picked ==> column[i] >= 0
    ensures Sum(column, picked) >= 0
  {
    if column != [] {
      SumNonnegative(column[..|column| - 1], picked);
    }
  }

  /** With no negative entry, a larger selection cannot weigh less. */
  lemma SumMonotone(column: seq<int>, a: set<nat>, b: set<nat>)
    requires a <= b
    requires forall i: nat :: i < |column| && i in b ==> column[i] >= 0
    ensures Sum(column, a) <= Sum(column, b)
  {
    SumUnion(column, a, b - a);
    SumNonnegative(column, b - a);
    assert a + (b - a) == b;
  }

  /** With positive entries, a sum vanishes only over nothing. */
  lemma {:induction false} SumPositive(column: seq<int>, picked: set<nat>)
    requires forall i: nat :: i < |column| && i in picked ==> column[i] > 0
    ensures Sum(column, picked) >= 0
    ensures Sum(column, picked) == 0 <==> forall i: nat :: i < |column| ==> i !in picked
  {
    if column != [] {
      var n := |column| - 1;
      SumPositive(column[..n], picked);
      if n !in picked && forall i: nat :: i < n ==> i !in picked {
        assert forall i: nat :: i < |column| ==> i !in picked;
      }
    }
  }
}
