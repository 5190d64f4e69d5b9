/** Totals over the receipt table in which each row contributes a share that depends
    on that row alone. A total moves by the shares of the rows a call touches. */
module Totals {
  import opened Mass
  import opened Ledger
  import opened Conservation

  function Total(receipts: seq<Receipt>, share: Receipt -> int): int {
    if receipts == [] then 0
    else Total(receipts[..|receipts| - 1], share) + share(receipts[|receipts| - 1])
  }

  lemma TotalPush(receipts: seq<Receipt>, r: Receipt, share: Receipt -> int)
    ensures Total(receipts + [r], share) == Total(receipts, share) + share(r)
  {
    assert (receipts + [r])[..|receipts|] == receipts;
  }

  lemma {:induction false} TotalSet(receipts: seq<Receipt>, at: nat, r: Receipt, share: Receipt -> int)
    requires at < |receipts|
    ensures Total(receipts[at := r], share) == Total(receipts, share) - share(receipts[at]) + share(r)
  {
    var n := |receipts| - 1;
    if at == n {
      assert receipts[at := r][..n] == receipts[..n];
    } else {
      TotalSet(receipts[..n], at, r, share);
      assert receipts[at := r][..n] == receipts[..n][at := r];
    }
  }

  /** What a change adds to a total. */
  function Shift(receipts: seq<Receipt>, change: Change, share: Receipt -> int): int {
    match change
    case Mint(row) => share(row)
    case Rewrite(at, row) => if at < |receipts| then share(row) - share(receipts[at]) else 0
    case Split(at, kids) =>
      if at < |receipts| && 1 <= |kids| <= 2
      then share(Superseded(receipts[at])) - share(receipts[at]) + share(kids[0])
           + (if |kids| == 2 then share(kids[1]) else 0)
      else 0
  }

  lemma SplitShifts(receipts: seq<Receipt>, at: nat, kids: seq<Receipt>, share: Receipt -> int)
    requires at < |receipts| && 1 <= |kids| <= 2
    ensures Total(receipts[at := Superseded(receipts[at])] + kids, share)
         == Total(receipts, share) + Shift(receipts, Split(at, kids), share)
  {
    hide Total;
    var marked := receipts[at := Superseded(receipts[at])];
    TotalSet(receipts, at, Superseded(receipts[at]), share);
    TotalPush(marked, kids[0], share);
    if |kids| == 2 {
      TotalPush(marked + [kids[0]], kids[1], share);
      assert marked + kids == marked + [kids[0]] + [kids[1]];
    } else {
      assert marked + kids == marked + [kids[0]];
    }
  }

  lemma TotalShifts(receipts: seq<Receipt>, change: Change, share: Receipt -> int)
    requires change.Split? ==> 1 <= |change.kids| <= 2
    requires !change.Mint? ==> change.at < |receipts|
    ensures Total(Changed(receipts, change), share) == Total(receipts, share) + Shift(receipts, change, share)
  {
    hide Total;
    match change
    case Mint(row) => TotalPush(receipts, row, share);
    case Rewrite(at, row) => TotalSet(receipts, at, row, share);
    case Split(at, kids) => SplitShifts(receipts, at, kids, share);
  }

  /** Totals of pointwise equal shares agree. */
  lemma {:induction false} TotalAgree(receipts: seq<Receipt>, f: Receipt -> int, g: Receipt -> int)
    requires forall r :: r in receipts ==> f(r) == g(r)
    ensures Total(receipts, f) == Total(receipts, g)
  {
    if receipts != [] {
      TotalAgree(receipts[..|receipts| - 1], f, g);
    }
  }

  lemma {:induction false} TotalAdds(receipts: seq<Receipt>, f: Receipt -> int, g: Receipt -> int, h: Receipt -> int)
    requires forall r :: r in receipts ==> h(r) == f(r) + g(r)
    ensures Total(receipts, h) == Total(receipts, f) + Total(receipts, g)
  {
    if receipts != [] {
      TotalAdds(receipts[..|receipts| - 1], f, g, h);
    }
  }

  lemma {:induction false} TotalNonnegative(receipts: seq<Receipt>, f: Receipt -> int)
    requires forall r :: r in receipts ==> f(r) >= 0
    ensures Total(receipts, f) >= 0
    ensures Total(receipts, f) == 0 <==> forall r :: r in receipts ==> f(r) == 0
  {
    if receipts != [] {
      var n := |receipts| - 1;
      TotalNonnegative(receipts[..n], f);
      assert forall r :: r in receipts <==> r in receipts[..n] || r == receipts[n];
    }
  }

  /** A total of selected quantities is the sum over the selected positions. */
  lemma {:induction false} TotalIsSum(receipts: seq<Receipt>, share: Receipt -> int, picked: set<nat>)
    requires forall i: nat :: i < |receipts| ==>
               share(receipts[i]) == (if i in picked then receipts[i].quantity else 0)
    ensures Total(receipts, share) == Sum(QuantityColumn(receipts), picked)
  {
    if receipts != [] {
      var n := |receipts| - 1;
      TotalIsSum(receipts[..n], share, picked);
      assert QuantityColumn(receipts)[..n] == QuantityColumn(receipts[..n]);
    }
  }
}
