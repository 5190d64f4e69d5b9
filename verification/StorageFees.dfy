/** Storage fees (src/storage-fees/storage-fees.service.ts): which policy applies, and the
    rounding of what it charges. Quantities and rates are reals. */
module StorageFees {
  import opened InventoryTypes

  datatype FeeType = PerMtPerMonth | PerMtPerDay | PerBagPerWeek | FlatRate

  datatype MeasurementUnit = METRIC_TON | KILOGRAM | BAG | UnconvertibleUnit

  /** What stops a fee; a division by a bag weight of zero gives no finite number. */
  datatype FeeError = MissingBagWeight | UnsupportedUnit | NotFinite

  datatype Fee = Charged(amount: real) | Unpriced(error: FeeError)

  type Weight = w: real | w >= 0.0

  type Divisor = d: real | d > 0.0 witness 1.0

  datatype Policy = Policy(tenant: string, warehouse: Option<string>, commodity: Option<string>, active: bool,
                           createdAt: int,
                           feeType: FeeType, rate: real)

  const DAY_MS: int := 86_400_000

  // ----- Ceilings ----------------------------------------------------------

  /** `Math.ceil(a / b)` of integers. */
  function CeilDiv(a: int, b: int): int
    requires b > 0
  {
    -((-a) / b)
  }

  lemma CeilDivBounds(a: int, b: int)
    requires b > 0
    ensures (CeilDiv(a, b) - 1) * b < a <= CeilDiv(a, b) * b
  {
    assert -a == (-a) / b * b + (-a) % b;
  }

  lemma Cancel(x: int, y: int, b: int)
    requires b > 0 && x * b < y * b
    ensures x < y
  {
    assert (y - x) * b == y * b - x * b > 0;
  }

  lemma CeilDivIsLeast(a: int, b: int, c: int)
    requires b > 0 && (c - 1) * b < a <= c * b
    ensures c == CeilDiv(a, b)
  {
    CeilDivBounds(a, b);
    Cancel(c - 1, CeilDiv(a, b), b);
    Cancel(CeilDiv(a, b) - 1, c, b);
  }

  lemma Scale(x: int, y: int, b: int)
    requires b > 0 && x <= y
    ensures x * b <= y * b
  {
    assert (y - x) * b >= 0;
  }

  lemma Regroup(x: int, b: int, c: int)
    ensures x * c * b == x * (b * c)
  {
  }

  /** A ceiling of a ceiling is one ceiling, for negative numbers as well. */
  lemma NestedCeilings(a: int, b: int, c: int)
    requires b > 0 && c > 0
    ensures b * c > 0 && CeilDiv(CeilDiv(a, b), c) == CeilDiv(a, b * c)
  {
    hide CeilDiv;
    var inner := CeilDiv(a, b);
    var outer := CeilDiv(inner, c);
    CeilDivBounds(a, b);
    CeilDivBounds(inner, c);
    Scale(inner, outer * c, b);
    Scale((outer - 1) * c, inner - 1, b);
    Regroup(outer, b, c);
    Regroup(outer - 1, b, c);
    Scale(1, b, c);
    CeilDivIsLeast(a, b * c, outer);
  }

  lemma CeilDivMonotone(a: int, b: int, c: int)
    requires c > 0 && a <= b
    ensures CeilDiv(a, c) <= CeilDiv(b, c)
  {
    CeilDivBounds(a, c);
    CeilDivBounds(b, c);
    Cancel(CeilDiv(a, c) - 1, CeilDiv(b, c), c);
  }

  /** `Math.ceil` of a real. */
  function Ceil(x: real): (c: int)
    ensures (c - 1) as real < x <= c as real
  {
    -((-x).Floor)
  }

  lemma CeilMonotone(x: real, y: real)
    requires x <= y
    ensures Ceil(x) <= Ceil(y)
  {
  }

  /** Rounding up piece by piece costs at most one more than rounding up the whole. */
  lemma CeilOfSum(x: real, y: real)
    ensures Ceil(x + y) <= Ceil(x) + Ceil(y) <= Ceil(x + y) + 1
  {
  }

  // ----- calculateFee ------------------------------------------------------

  function Days(deposited: int, withdrawn: int): int {
    CeilDiv(withdrawn - deposited, DAY_MS)
  }

  function Weeks(deposited: int, withdrawn: int): int {
    CeilDiv(Days(deposited, withdrawn), 7)
  }

  function Months(deposited: int, withdrawn: int): int {
    CeilDiv(Days(deposited, withdrawn), 30)
  }

  function Scaled(x: real, factor: real): real {
    x * factor
  }

  function Per(x: real, divisor: Divisor): real {
    x / divisor
  }

  function ToMt(quantity: real, unit: MeasurementUnit, bagWeight: Option<Weight>): Fee {
    match unit
    case METRIC_TON => Charged(quantity)
    case KILOGRAM => Charged(quantity / 1000.0)
    case BAG =>
      // a weight of zero counts as missing
      if bagWeight.None? || bagWeight.value == 0.0 then Unpriced(MissingBagWeight)
      else Charged(Scaled(quantity, bagWeight.value) / 1000.0)
    case UnconvertibleUnit => Unpriced(UnsupportedUnit)
  }

  /** A missing bag weight counts as one kilogram here, a weight of zero is divided by. */
  function ToBags(quantity: real, unit: MeasurementUnit, bagWeight: Option<Weight>): Fee {
    match unit
    case BAG => Charged(quantity)
    case KILOGRAM => Bags(quantity, bagWeight)
    case METRIC_TON => Bags(quantity * 1000.0, bagWeight)
    case UnconvertibleUnit => Unpriced(UnsupportedUnit)
  }

  function Bags(kilograms: real, bagWeight: Option<Weight>): Fee {
    if bagWeight.None? then Charged(Ceil(kilograms) as real)
    else if bagWeight.value == 0.0 then Unpriced(NotFinite)
    else Charged(Ceil(Per(kilograms, bagWeight.value)) as real)
  }

  function Times(fee: Fee, rate: real, periods: int): Fee {
    if fee.Unpriced? then fee else Charged(Scaled(Scaled(fee.amount, rate), periods as real))
  }

  function CalculateFee(policy: Policy, quantity: real, unit: MeasurementUnit, deposited: int, withdrawn: int,
                        bagWeight: Option<Weight>): Fee {
    match policy.feeType
    case PerMtPerMonth => Times(ToMt(quantity, unit, bagWeight), policy.rate, Months(deposited, withdrawn))
    case PerMtPerDay => Times(ToMt(quantity, unit, bagWeight), policy.rate, Days(deposited, withdrawn))
    case PerBagPerWeek => Times(ToBags(quantity, unit, bagWeight), policy.rate, Weeks(deposited, withdrawn))
    case FlatRate => Charged(policy.rate)
  }

  /** The nested ceilings are single ceilings over milliseconds. */
  lemma PeriodsAreSingleCeilings(deposited: int, withdrawn: int)
    ensures Weeks(deposited, withdrawn) == CeilDiv(withdrawn - deposited, 7 * DAY_MS)
    ensures Months(deposited, withdrawn) == CeilDiv(withdrawn - deposited, 30 * DAY_MS)
  {
    NestedCeilings(withdrawn - deposited, DAY_MS, 7);
    NestedCeilings(withdrawn - deposited, DAY_MS, 30);
  }

  lemma PeriodsGrow(deposited: int, earlier: int, later: int)
    requires deposited <= earlier <= later
    ensures 0 <= Days(deposited, earlier) <= Days(deposited, later)
    ensures 0 <= Weeks(deposited, earlier) <= Weeks(deposited, later)
    ensures 0 <= Months(deposited, earlier) <= Months(deposited, later)
  {
    hide CeilDiv;
    CeilDivIsLeast(0, DAY_MS, 0);
    CeilDivIsLeast(0, 7, 0);
    CeilDivIsLeast(0, 30, 0);
    CeilDivMonotone(0, earlier - deposited, DAY_MS);
    CeilDivMonotone(earlier - deposited, later - deposited, DAY_MS);
    CeilDivMonotone(0, Days(deposited, earlier), 7);
    CeilDivMonotone(Days(deposited, earlier), Days(deposited, later), 7);
    CeilDivMonotone(0, Days(deposited, earlier), 30);
    CeilDivMonotone(Days(deposited, earlier), Days(deposited, later), 30);
  }

  lemma ScaledGrows(x: real, y: real, factor: real)
    requires x <= y && factor >= 0.0
    ensures Scaled(x, factor) <= Scaled(y, factor)
    ensures Scaled(0.0, factor) == 0.0
  {
    assert (y - x) * factor >= 0.0;
  }

  lemma FactorGrows(x: real, low: real, high: real)
    requires x >= 0.0 && low <= high
    ensures Scaled(x, low) <= Scaled(x, high)
  {
    assert x * (high - low) >= 0.0;
  }

  lemma ScaledSplits(x: real, y: real, factor: real)
    ensures Scaled(x + y, factor) == Scaled(x, factor) + Scaled(y, factor)
  {
  }

  lemma PerGrows(x: real, y: real, divisor: Divisor)
    requires x <= y
    ensures Per(x, divisor) <= Per(y, divisor)
    ensures Per(0.0, divisor) == 0.0
  {
    assert Per(y, divisor) - Per(x, divisor) == (y - x) / divisor;
  }

  lemma PerOne(x: real)
    ensures Per(x, 1.0) == x
  {
  }

  lemma PerSplits(x: real, y: real, divisor: Divisor)
    ensures Per(x + y, divisor) == Per(x, divisor) + Per(y, divisor)
  {
  }

  lemma ProductGrows(x: real, y: real, rate: real, m: int, n: int)
    requires 0.0 <= x <= y && rate >= 0.0 && 0 <= m <= n
    ensures Scaled(Scaled(x, rate), m as real) <= Scaled(Scaled(y, rate), n as real)
  {
    ScaledGrows(x, y, rate);
    ScaledGrows(0.0, y, rate);
    ScaledGrows(Scaled(x, rate), Scaled(y, rate), m as real);
    hide Scaled;
    FactorGrows(Scaled(y, rate), m as real, n as real);
  }

  lemma TonsGrow(x: real, y: real, unit: MeasurementUnit, bagWeight: Option<Weight>)
    requires 0.0 <= x <= y && ToMt(x, unit, bagWeight).Charged?
    ensures ToMt(y, unit, bagWeight).Charged?
    ensures 0.0 <= ToMt(x, unit, bagWeight).amount <= ToMt(y, unit, bagWeight).amount
  {
    hide Scaled;
    if bagWeight.Some? {
      ScaledGrows(x, y, bagWeight.value);
      ScaledGrows(0.0, x, bagWeight.value);
    }
  }

  lemma BagsGrow(x: real, y: real, unit: MeasurementUnit, bagWeight: Option<Weight>)
    requires 0.0 <= x <= y && ToBags(x, unit, bagWeight).Charged?
    ensures ToBags(y, unit, bagWeight).Charged?
    ensures 0.0 <= ToBags(x, unit, bagWeight).amount <= ToBags(y, unit, bagWeight).amount
  {
    hide Per, Ceil;
    var weight: Divisor := if bagWeight.Some? && bagWeight.value > 0.0 then bagWeight.value else 1.0;
    PerOne(x);
    PerOne(y);
    PerOne(x * 1000.0);
    PerOne(y * 1000.0);
    PerGrows(x, y, weight);
    PerGrows(0.0, x, weight);
    PerGrows(x * 1000.0, y * 1000.0, weight);
    PerGrows(0.0, x * 1000.0, weight);
    CeilMonotone(Per(x, weight), Per(y, weight));
    CeilMonotone(Per(x * 1000.0, weight), Per(y * 1000.0, weight));
  }

  /** At a rate that is not negative, and from the deposit on, waiting longer or taking
      more never costs less; so under one policy the fee at dispatch is never below the
      provisional fee of the request. */
  lemma FeeGrows(policy: Policy, x: real, y: real, unit: MeasurementUnit, deposited: int, earlier: int, later: int,
                 bagWeight: Option<Weight>)
    requires policy.rate >= 0.0 && 0.0 <= x <= y && deposited <= earlier <= later
    requires CalculateFee(policy, x, unit, deposited, earlier, bagWeight).Charged?
    ensures CalculateFee(policy, y, unit, deposited, later, bagWeight).Charged?
    ensures CalculateFee(policy, x, unit, deposited, earlier, bagWeight).amount
         <= CalculateFee(policy, y, unit, deposited, later, bagWeight).amount
  {
    hide ToMt, ToBags, Days, Weeks, Months, Scaled;
    PeriodsGrow(deposited, earlier, later);
    if policy.feeType.PerBagPerWeek? {
      BagsGrow(x, y, unit, bagWeight);
      ProductGrows(ToBags(x, unit, bagWeight).amount, ToBags(y, unit, bagWeight).amount, policy.rate,
                   Weeks(deposited, earlier), Weeks(deposited, later));
    } else if !policy.feeType.FlatRate? {
      TonsGrow(x, y, unit, bagWeight);
      var tonsX, tonsY := ToMt(x, unit, bagWeight).amount, ToMt(y, unit, bagWeight).amount;
      ProductGrows(tonsX, tonsY, policy.rate, Months(deposited, earlier), Months(deposited, later));
      ProductGrows(tonsX, tonsY, policy.rate, Days(deposited, earlier), Days(deposited, later));
    }
  }

  // ----- Splitting a quantity ----------------------------------------------

  lemma TonsAdd(x: real, y: real, unit: MeasurementUnit, bagWeight: Option<Weight>)
    requires ToMt(x, unit, bagWeight).Charged?
    ensures ToMt(y, unit, bagWeight).Charged? && ToMt(x + y, unit, bagWeight).Charged?
    ensures ToMt(x + y, unit, bagWeight).amount == ToMt(x, unit, bagWeight).amount + ToMt(y, unit, bagWeight).amount
  {
    hide Scaled;
    if bagWeight.Some? {
      ScaledSplits(x, y, bagWeight.value);
    }
  }

  lemma BagsAdd(x: real, y: real, unit: MeasurementUnit, bagWeight: Option<Weight>)
    requires ToBags(x, unit, bagWeight).Charged?
    ensures ToBags(y, unit, bagWeight).Charged? && ToBags(x + y, unit, bagWeight).Charged?
    ensures ToBags(x + y, unit, bagWeight).amount <= ToBags(x, unit, bagWeight).amount
            + ToBags(y, unit, bagWeight).amount
         <= ToBags(x + y, unit, bagWeight).amount + 1.0
  {
    hide Per, Ceil;
    var weight: Divisor := if bagWeight.Some? && bagWeight.value > 0.0 then bagWeight.value else 1.0;
    PerOne(x);
    PerOne(y);
    PerOne(x * 1000.0);
    PerOne(y * 1000.0);
    PerOne(x + y);
    PerOne((x + y) * 1000.0);
    PerSplits(x, y, weight);
    PerSplits(x * 1000.0, y * 1000.0, weight);
    assert (x + y) * 1000.0 == x * 1000.0 + y * 1000.0;
    CeilOfSum(Per(x, weight), Per(y, weight));
    CeilOfSum(Per(x * 1000.0, weight), Per(y * 1000.0, weight));
  }

  lemma ProductSplits(a: real, b: real, rate: real, n: int)
    ensures Scaled(Scaled(a + b, rate), n as real)
         == Scaled(Scaled(a, rate), n as real) + Scaled(Scaled(b, rate), n as real)
  {
    ScaledSplits(a, b, rate);
    ScaledSplits(Scaled(a, rate), Scaled(b, rate), n as real);
    hide Scaled;
  }

  /** A fee per metric ton is the same however a quantity is split. */
  lemma PerMtFeesAdd(policy: Policy, x: real, y: real, unit: MeasurementUnit, deposited: int, withdrawn: int,
                     bagWeight: Option<Weight>)
    requires policy.feeType.PerMtPerMonth? || policy.feeType.PerMtPerDay?
    requires CalculateFee(policy, x, unit, deposited, withdrawn, bagWeight).Charged?
    ensures CalculateFee(policy, y, unit, deposited, withdrawn, bagWeight).Charged?
    ensures CalculateFee(policy, x + y, unit, deposited, withdrawn, bagWeight).Charged?
    ensures CalculateFee(policy, x + y, unit, deposited, withdrawn, bagWeight).amount
         == CalculateFee(policy, x, unit, deposited, withdrawn, bagWeight).amount
            + CalculateFee(policy, y, unit, deposited, withdrawn, bagWeight).amount
  {
    hide ToMt, ToBags, Days, Weeks, Months, Scaled;
    TonsAdd(x, y, unit, bagWeight);
    var a, b := ToMt(x, unit, bagWeight), ToMt(y, unit, bagWeight);
    ProductSplits(a.amount, b.amount, policy.rate, Months(deposited, withdrawn));
    ProductSplits(a.amount, b.amount, policy.rate, Days(deposited, withdrawn));
  }

  /** A fee per bag never falls when a quantity is split, and rises by at most one bag. */
  lemma PerBagFeesSubadd(policy: Policy, x: real, y: real, unit: MeasurementUnit, deposited: int, withdrawn: int,
                         bagWeight: Option<Weight>)
    requires policy.feeType.PerBagPerWeek? && policy.rate >= 0.0 && deposited <= withdrawn
    requires x >= 0.0 && y >= 0.0
    requires CalculateFee(policy, x, unit, deposited, withdrawn, bagWeight).Charged?
    ensures CalculateFee(policy, y, unit, deposited, withdrawn, bagWeight).Charged?
    ensures CalculateFee(policy, x + y, unit, deposited, withdrawn, bagWeight).Charged?
    ensures var whole := CalculateFee(policy, x + y, unit, deposited, withdrawn, bagWeight).amount;
            var parts := CalculateFee(policy, x, unit, deposited, withdrawn, bagWeight).amount
                         + CalculateFee(policy, y, unit, deposited, withdrawn, bagWeight).amount;
            whole <= parts <= whole + Scaled(Scaled(1.0, policy.rate), Weeks(deposited, withdrawn) as real)
  {
    hide ToMt, ToBags, Days, Weeks, Months, Scaled;
    BagsAdd(x, y, unit, bagWeight);
    BagsGrow(0.0, x, unit, bagWeight) by { BagsChargeAlike(0.0, x, unit, bagWeight); }
    BagsGrow(0.0, y, unit, bagWeight) by { BagsChargeAlike(0.0, y, unit, bagWeight); }
    BagsGrow(0.0, x + y, unit, bagWeight) by { BagsChargeAlike(0.0, x, unit, bagWeight); }
    PeriodsGrow(deposited, withdrawn, withdrawn);
    var a, b, c := ToBags(x, unit, bagWeight).amount, ToBags(y, unit, bagWeight).amount,
      ToBags(x + y, unit, bagWeight).amount;
    var weeks := Weeks(deposited, withdrawn);
    ProductSplits(a, b, policy.rate, weeks);
    ProductSplits(c, 1.0, policy.rate, weeks);
    ProductGrows(c, a + b, policy.rate, weeks, weeks);
    ProductGrows(a + b, c + 1.0, policy.rate, weeks, weeks);
  }

  lemma BagsChargeAlike(x: real, y: real, unit: MeasurementUnit, bagWeight: Option<Weight>)
    ensures ToBags(x, unit, bagWeight).Charged? <==> ToBags(y, unit, bagWeight).Charged?
  {
  }

  // ----- resolvePolicy -----------------------------------------------------

  /** The scopes tried in turn: warehouse and commodity, warehouse, commodity, neither. */
  predicate InScope(p: Policy, tenant: string, warehouse: string, commodity: string, tier: nat) {
    && p.tenant == tenant && p.active
    && p.warehouse == (if tier < 2 then Some(warehouse) else None)
    && p.commodity == (if tier % 2 == 0 && tier < 4 then Some(commodity) else None)
  }

  /** `findFirst`, newest first. */
  method FindNewest(policies: seq<Policy>, tenant: string, warehouse: string, commodity: string,
                    tier: nat) returns (found: Option<nat>)
    ensures found.None? ==> forall i :: 0 <= i < |policies| ==>
               !InScope(policies[i], tenant, warehouse, commodity, tier)
    ensures found.Some? ==>
              && found.value < |policies| && InScope(policies[found.value], tenant, warehouse, commodity, tier)
              && forall i :: 0 <= i < |policies| && InScope(policies[i], tenant, warehouse, commodity, tier) ==>
                   policies[i].createdAt <= policies[found.value].createdAt
  {
    found := None;
    for i := 0 to |policies|
      invariant found.None? ==> forall k :: 0 <= k < i ==> !InScope(policies[k], tenant, warehouse, commodity, tier)
      invariant found.Some? ==>
                  && found.value < i && InScope(policies[found.value], tenant, warehouse, commodity, tier)
                  && forall k :: 0 <= k < i && InScope(policies[k], tenant, warehouse, commodity, tier) ==>
                       policies[k].createdAt <= policies[found.value].createdAt
    {
      if InScope(policies[i], tenant, warehouse, commodity, tier)
         && (found.None? || policies[found.value].createdAt < policies[i].createdAt) {
        found := Some(i);
      }
    }
  }

  /** `resolvePolicy`: a policy of the most specific scope that has an active one, the
      newest of them; none exactly if no scope has one. */
  method ResolvePolicy(policies: seq<Policy>, tenant: string, warehouse: string,
                       commodity: string) returns (found: Option<nat>, tier: nat)
    ensures found.None?
           <==> forall i, t: nat :: 0 <= i < |policies| && t < 4 ==>
                  !InScope(policies[i], tenant, warehouse, commodity, t)
    ensures found.Some? ==>
              && found.value < |policies| && tier < 4
              && InScope(policies[found.value], tenant, warehouse, commodity, tier)
              && (forall i, t: nat :: 0 <= i < |policies| && t < tier ==>
                    !InScope(policies[i], tenant, warehouse, commodity, t))
              && (forall i :: 0 <= i < |policies| && InScope(policies[i], tenant, warehouse, commodity, tier) ==>
                    policies[i].createdAt <= policies[found.value].createdAt)
  {
    hide InScope;
    found, tier := None, 0;
    while tier < 4
      invariant tier <= 4
      invariant forall i, t: nat :: 0 <= i < |policies| && t < tier ==>
          !InScope(policies[i], tenant, warehouse, commodity, t)
    {
      found := FindNewest(policies, tenant, warehouse, commodity, tier);
      if found.Some? {
        return;
      }
      tier := tier + 1;
    }
    found := None;
  }
}
