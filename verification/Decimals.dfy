/** The columns keep fewer decimals than the callers send: `receipts.quantity` and
    `inventory_events.quantity` are Decimal(18,3) (prisma/schema.prisma:689,778), while a
    pledge, a lien and a line of a release request are Decimal(20,4) (1518,1583-1584,1656).
    Here every row and event is rounded as it is inserted: quantities are counted in the
    caller's unit, and the columns keep the multiples of a grain `g`, 10 for one decimal
    less. What the ledger proves elsewhere holds of quantities the columns store exactly;
    for all others this module says what happens instead. */
module Decimals {
  import opened InventoryTypes
  import opened ReceiptNumbers
  import opened Mass
  import opened Forest
  import opened Ledger
  import opened LedgerInvariant
  import opened Conservation
  import opened Totals
  import opened ExactlyOnce
  import opened Coupling

  // ----- Rounding ----------------------------------------------------------

  function HalfUp(q: int, g: int): int
    requires g > 0
  {
    q - q % g + (if 2 * (q % g) >= g then g else 0)
  }

  /** What a column keeping multiples of `g` stores: halves go away from zero. */
  function Stored(q: int, g: int): int
    requires g > 0
  {
    if q < 0 then -HalfUp(-q, g) else HalfUp(q, g)
  }

  /** Half a grain is left over: the one residue that rounds up on both sides of a split. */
  predicate IsHalf(q: int, g: int)
    requires g > 0
  {
    2 * (q % g) == g
  }

  lemma Residue(k: int, r: int, g: int)
    requires g > 0 && 0 <= r < g
    ensures (k * g + r) % g == r
  {
    var x := k * g + r;
    var d := k - x / g;
    assert d * g == x % g - r;
    Scaled(d, g);
  }

  lemma Scaled(d: int, g: int)
    requires g > 0
    ensures d >= 1 ==> d * g >= g
    ensures d <= -1 ==> d * g <= -g
  {
    if d >= 1 {
      assert (d - 1) * g >= 0;
    } else if d <= -1 {
      assert (d + 1) * g <= 0;
    }
  }

  lemma RestOfWhole(src: int, q: int, g: int)
    requires g > 0 && src % g == 0
    ensures (src - q) % g == if q % g == 0 then 0 else g - q % g
  {
    var r := if q % g == 0 then 0 else g - q % g;
    var k := src / g - q / g - (if q % g == 0 then 0 else 1);
    Residue(k, r, g);
    assert src == (src / g) * g && q == (q / g) * g + q % g;
    assert src - q == k * g + r;
  }

  lemma HalfUpIsNearest(q: int, g: int)
    requires g > 0
    ensures HalfUp(q, g) % g == 0
    ensures HalfUp(q, g) == q <==> q % g == 0
    ensures -g < 2 * (HalfUp(q, g) - q) <= g
  {
    var k := q / g + (if 2 * (q % g) >= g then 1 else 0);
    assert q == (q / g) * g + q % g;
    assert HalfUp(q, g) == k * g + 0;
    Residue(k, 0, g);
  }

  /** The nearest multiple, and of two equally near the one further from zero; a quantity
      is stored exactly when it is a multiple. */
  lemma StoredIsNearest(q: int, g: int)
    requires g > 0
    ensures Stored(q, g) % g == 0
    ensures -g <= 2 * (Stored(q, g) - q) <= g
    ensures 2 * (Stored(q, g) - q) == -g ==> q < 0
    ensures 2 * (Stored(q, g) - q) == g ==> q >= 0
    ensures Stored(q, g) == q <==> q % g == 0
  {
    hide HalfUp;
    HalfUpIsNearest(q, g);
    HalfUpIsNearest(-q, g);
    RestOfWhole(0, q, g);
    RestOfWhole(0, HalfUp(-q, g), g);
  }

  lemma StoredIsNonnegative(q: int, g: int)
    requires g > 0 && q >= 0
    ensures Stored(q, g) >= 0
  {
    hide HalfUp;
    HalfUpIsNearest(q, g);
    var k := HalfUp(q, g) / g;
    assert HalfUp(q, g) == k * g + HalfUp(q, g) % g;
    assert HalfUp(q, g) > -g;
    Scaled(k, g);
  }

  /** Splitting a stored quantity: the two stored parts weigh the whole, or a grain more
      exactly when half a grain is left over. */
  lemma SplitStores(src: int, q: int, g: int)
    requires g > 0 && src % g == 0 && 0 <= q <= src
    ensures Stored(q, g) + Stored(src - q, g) == src + (if IsHalf(q, g) then g else 0)
  {
    RestOfWhole(src, q, g);
  }

  // ----- The ledger with rounding columns ----------------------------------

  function StoredRow(r: Receipt, g: int): Receipt
    requires g > 0
  {
    r.(quantity := Stored(r.quantity, g))
  }

  function StoredRows(rows: seq<Receipt>, g: int): (r: seq<Receipt>)
    requires g > 0
    ensures |r| == |rows| && forall i :: 0 <= i < |rows| ==> r[i] == StoredRow(rows[i], g)
  {
    seq(|rows|, i requires 0 <= i < |rows| => StoredRow(rows[i], g))
  }

  function StoredEvents(events: seq<Event>, g: int): (r: seq<Event>)
    requires g > 0
    ensures |r| == |events|
    ensures forall e :: 0 <= e < |events| ==> r[e] == events[e].(quantity := Stored(events[e].quantity, g))
  {
    seq(|events|, e requires 0 <= e < |events| => events[e].(quantity := Stored(events[e].quantity, g)))
  }

  /** Inserts round; an update leaves the quantity alone. */
  function StoredChange(change: Change, g: int): Change
    requires g > 0
  {
    match change
    case Mint(row) => Mint(StoredRow(row, g))
    case Rewrite(at, row) => Rewrite(at, row)
    case Split(at, kids) => Split(at, StoredRows(kids, g))
  }

  function StoredTransact(db: Db, call: Call, g: int): Result<Db>
    requires g > 0
  {
    var plan := Plan(db, call);
    if plan.Err? then Err(plan.error)
    else if Collides(db, plan.value) then Err(UniqueViolation)
    else Ok(Db(Changed(db.receipts, StoredChange(plan.value.change, g)),
               db.events + StoredEvents(plan.value.events, g)))
  }

  function StoredInvoke(db: Db, call: Call, g: int): Outcome
    requires g > 0
  {
    if call.op.Deposit? && call.op.quantity <= 0 then Outcome(db, Err(InsufficientQuantity))
    else
      var prior := FindEvent(db.events, call.key);
      if prior.Some? then Outcome(db, Reconstruct(db, prior.value, call.op))
      else
        var done := StoredTransact(db, call, g);
        if done.Ok? then Outcome(done.value, Ok(FreshReply(db, call.op))) else Outcome(db, Err(done.error))
  }

  function StoredRun(db: Db, calls: seq<Call>, g: int): Db
    requires g > 0
  {
    if calls == [] then db
    else StoredInvoke(StoredRun(db, calls[..|calls| - 1], g), calls[|calls| - 1], g).db
  }

  // ----- Quantities the columns store exactly ------------------------------

  ghost predicate WholeRows(receipts: seq<Receipt>, g: int)
    requires g > 0
  {
    forall i :: 0 <= i < |receipts| ==> receipts[i].quantity % g == 0
  }

  /** The quantity a caller passes to a primitive. */
  function AskedQuantity(op: Op): int {
    match op
    case Deposit(_, _, _, quantity, _) => quantity
    case Hold(_, quantity, _, _, _) => quantity
    case ReleasePartial(_, quantity, _) => quantity
    case Seize(_, _, Some(quantity)) => quantity
    case _ => 0
  }

  predicate WholeCall(call: Call, g: int)
    requires g > 0
  {
    AskedQuantity(call.op) % g == 0
  }

  ghost predicate WholeWrites(w: Writes, g: int)
    requires g > 0
  {
    && (forall k :: 0 <= k < |w.events| ==> w.events[k].quantity % g == 0)
    && WholeRows(NewRows(w.change), g)
    && (w.change.Rewrite? ==> w.change.row.quantity % g == 0)
  }

  lemma PlanIsWhole(db: Db, call: Call, g: int)
    requires g > 0 && WholeRows(db.receipts, g) && WholeCall(call, g) && Plan(db, call).Ok?
    ensures WholeWrites(Plan(db, call).value, g)
  {
    hide SplitSuffixes, Numbers, ChildNumber, BaseReceiptNumber, KeyUsed, WithRelease;
    if !call.op.Deposit? {
      RestOfWhole(db.receipts[call.op.receipt].quantity, AskedQuantity(call.op), g);
    }
  }

  lemma WholeIsStored(w: Writes, g: int)
    requires g > 0 && WholeWrites(w, g)
    ensures StoredChange(w.change, g) == w.change && StoredEvents(w.events, g) == w.events
  {
    hide Stored;
    forall r: Receipt | r.quantity % g == 0
      ensures StoredRow(r, g) == r
    {
      StoredIsNearest(r.quantity, g);
    }
    forall k | 0 <= k < |w.events|
      ensures StoredEvents(w.events, g)[k] == w.events[k]
    {
      StoredIsNearest(w.events[k].quantity, g);
    }
    assert StoredEvents(w.events, g) == w.events;
    if w.change.Split? {
      assert StoredRows(w.change.kids, g) == w.change.kids;
    } else if w.change.Mint? {
      assert NewRows(w.change)[0] == w.change.row;
    }
  }

  /** Quantities that are multiples of the grain round to themselves, so the rounding
      ledger does what the exact one does. */
  lemma WholeCallIsExact(db: Db, call: Call, g: int)
    requires g > 0 && WholeRows(db.receipts, g) && WholeCall(call, g)
    ensures StoredInvoke(db, call, g) == Invoke(db, call)
    ensures WholeRows(Invoke(db, call).db.receipts, g)
  {
    hide Plan, Collides, WholeCall, FreshReply, Reconstruct;
    if Plan(db, call).Ok? {
      PlanIsWhole(db, call, g);
      WholeIsStored(Plan(db, call).value, g);
    }
  }

  /** Every run of calls with such quantities: all that is proved of `Run` holds of it. */
  lemma {:induction false} WholeRunIsExact(calls: seq<Call>, g: int)
    requires g > 0 && forall k :: 0 <= k < |calls| ==> WholeCall(calls[k], g)
    ensures StoredRun(EMPTY_DB, calls, g) == Run(EMPTY_DB, calls)
    ensures WholeRows(Run(EMPTY_DB, calls).receipts, g)
  {
    hide Invoke, StoredInvoke, WholeCall;
    if calls != [] {
      WholeRunIsExact(calls[..|calls| - 1], g);
      WholeCallIsExact(Run(EMPTY_DB, calls[..|calls| - 1]), calls[|calls| - 1], g);
    }
  }

  /** A planned call whose keys are unused commits, rounded. */
  lemma StoredCallCommits(db: Db, call: Call, g: int)
    requires g > 0 && Plan(db, call).Ok? && !call.op.Deposit?
    requires forall key :: Uses(call, key) ==> !KeyUsed(db.events, key)
    ensures var w := Plan(db, call).value;
            StoredInvoke(db, call, g)
            == Outcome(Db(Changed(db.receipts, StoredChange(w.change, g)), db.events + StoredEvents(w.events, g)),
                       Ok(FreshReply(db, call.op)))
  {
    hide Plan, FreshReply, Reconstruct, LawfulNumbers, KeyUsed, WithRelease, StoredChange, Collides;
    NotDepositNotMint(db, call);
    FoundIsUsed(db.events, call.key);
    assert Uses(call, call.key);
    PlanNumbersLawfully(db, call);
    NoCollision(db, call, Plan(db, call).value);
  }

  /** The call puts its writes on file, rather than answering from the log or failing. */
  predicate Commits(db: Db, call: Call, g: int)
    requires g > 0
  {
    Admitted(call.op) && FindEvent(db.events, call.key).None? && StoredTransact(db, call, g).Ok?
  }

  lemma StoredCallWrites(db: Db, call: Call, g: int)
    requires g > 0
    ensures var after := StoredInvoke(db, call, g).db;
            if Commits(db, call, g) then
              && Plan(db, call).Ok? && !Collides(db, Plan(db, call).value)
              && var w := Plan(db, call).value;
                 after == Db(Changed(db.receipts, StoredChange(w.change, g)), db.events + StoredEvents(w.events, g))
            else after == db
  {
    hide Plan, Collides, FindEvent, Reconstruct, FreshReply, StoredChange;
  }

  // ----- What does not look at quantities -----------------------------------

  /** Rows that differ in their quantity at most. */
  ghost predicate SameButQuantities(a: seq<Receipt>, b: seq<Receipt>) {
    |a| == |b| && forall i {:trigger b[i]} :: 0 <= i < |a| ==> b[i] == a[i].(quantity := b[i].quantity)
  }

  lemma StoredIsTheSameBut(receipts: seq<Receipt>, change: Change, g: int)
    requires g > 0
    ensures SameButQuantities(Changed(receipts, change), Changed(receipts, StoredChange(change, g)))
  {
    hide Stored;
  }

  lemma FramedIgnoresQuantities(a: Db, b: Db)
    requires Framed(a) && SameButQuantities(a.receipts, b.receipts)
    requires |b.events| == |a.events|
    requires forall e {:trigger b.events[e]} :: 0 <= e < |a.events| ==>
               b.events[e] == a.events[e].(quantity := b.events[e].quantity)
    ensures Framed(b)
  {
    hide Rank;
    forall i: nat | i < |b.receipts|
      ensures LineageAt(b.receipts, i) && RowRules(b.receipts[i]) && SourcedAt(b, i)
    {
      assert LineageAt(a.receipts, i) && RowRules(a.receipts[i]) && SourcedAt(a, i);
    }
  }

  /** Every call keeps lineage, status rules and sources, whatever the quantities. */
  lemma StoredCallKeepsFramed(db: Db, call: Call, g: int)
    requires g > 0 && Framed(db)
    ensures Framed(StoredInvoke(db, call, g).db)
  {
    hide Plan, Lawful, LawfulChange, LawfulNumbers, LawfulEvents, Collides, Commits, StoredInvoke, StoredChange,
         Lineage, StatusRules, Sourced, SameButQuantities, Changed, Stored;
    StoredCallWrites(db, call, g);
    if Commits(db, call, g) {
      var w := Plan(db, call).value;
      CommittedIsAdmitted(db, call, g);
      PlanIsLawful(db, call);
      LawfulIsWhat(db, w);
      KeepsLineage(db, w.change);
      KeepsStatusRules(db, w.change);
      KeepsSources(db, w);
      StoredIsTheSameBut(db.receipts, w.change, g);
      FramedIgnoresQuantities(After(db, w), StoredInvoke(db, call, g).db);
    }
  }

  lemma CommittedIsAdmitted(db: Db, call: Call, g: int)
    requires g > 0 && Commits(db, call, g)
    ensures Admitted(call.op)
  {
  }

  lemma LawfulIsWhat(db: Db, w: Writes)
    requires Lawful(db, w)
    ensures LawfulChange(db, w.change) && LawfulEvents(db, w)
  {
    hide LawfulChange, LawfulEvents, LawfulNumbers;
  }

  lemma {:induction false} StoredRunIsFramed(calls: seq<Call>, g: int)
    requires g > 0
    ensures Framed(StoredRun(EMPTY_DB, calls, g))
  {
    hide StoredInvoke;
    if calls != [] {
      StoredRunIsFramed(calls[..|calls| - 1], g);
      StoredCallKeepsFramed(StoredRun(EMPTY_DB, calls[..|calls| - 1], g), calls[|calls| - 1], g);
    }
  }

  // ----- Conservation, with any quantities ---------------------------------

  /** The call commits a split of a row picked by `of` and leaves half a grain over. */
  predicate HalfSplit(db: Db, call: Call, g: int, of: (Receipt, Op) -> bool)
    requires g > 0
  {
    && Commits(db, call, g) && Plan(db, call).value.change.Split? && IsHalf(AskedQuantity(call.op), g)
    && !call.op.Deposit? && call.op.receipt < |db.receipts| && of(db.receipts[call.op.receipt], call.op)
  }

  /** How many calls of a run do. */
  function HalfSplits(calls: seq<Call>, g: int, of: (Receipt, Op) -> bool): nat
    requires g > 0
  {
    if calls == [] then 0
    else
      var before := calls[..|calls| - 1];
      HalfSplits(before, g, of)
      + (if HalfSplit(StoredRun(EMPTY_DB, before, g), calls[|calls| - 1], g, of) then 1 else 0)
  }

  function InTreeOf(t: nat): (Receipt, Op) -> bool {
    (r: Receipt, op: Op) => r.root == t
  }

  function Exactly(p: nat): (Receipt, Op) -> bool {
    (r: Receipt, op: Op) => !op.Deposit? && op.receipt == p
  }

  /** What the rounding columns keep in any case. */
  ghost predicate Rounded(receipts: seq<Receipt>, g: int)
    requires g > 0
  {
    && WholeRows(receipts, g)
    && (forall i {:trigger receipts[i]} :: 0 <= i < |receipts| ==>
          receipts[i].quantity >= 0 && (receipts[i].isParent <==> receipts[i].status == SPLIT))
  }

  /** A change that keeps them: a new root, a row that stays what it is, or one open row
      whose place is taken by its parts. */
  ghost predicate Rounds(receipts: seq<Receipt>, change: Change, g: int, half: bool)
    requires g > 0
  {
    match change
    case Mint(row) =>
      && row.parent.None? && row.root == |receipts| && !row.isParent && row.status != SPLIT
      && row.quantity % g == 0 && row.quantity >= 0
    case Rewrite(at, row) =>
      && at < |receipts| && row == receipts[at].(status := row.status, approval := row.approval, client := row.client)
      && (row.status == SPLIT <==> receipts[at].status == SPLIT)
    case Split(at, kids) =>
      && at < |receipts| && !receipts[at].isParent && 1 <= |kids| <= 2
      && (forall k :: 0 <= k < |kids| ==>
            && kids[k].parent == Some(at) && kids[k].root == receipts[at].root && !kids[k].isParent
            && kids[k].status != SPLIT && kids[k].quantity % g == 0 && kids[k].quantity >= 0)
      && kids[0].quantity + (if |kids| == 2 then kids[1].quantity else 0)
         == receipts[at].quantity + (if half then g else 0)
  }

  lemma PartRounds(src: Receipt, q: int, g: int)
    requires g > 0 && src.quantity % g == 0 && 0 < q <= src.quantity
    ensures Stored(q, g) % g == 0 && Stored(src.quantity - q, g) % g == 0
    ensures Stored(q, g) + Stored(src.quantity - q, g) == src.quantity + (if IsHalf(q, g) then g else 0)
    ensures Stored(q, g) >= 0 && Stored(src.quantity - q, g) >= 0
    ensures src.quantity == q ==> Stored(q, g) == q && !IsHalf(q, g)
  {
    hide Stored;
    StoredIsNonnegative(q, g);
    StoredIsNonnegative(src.quantity - q, g);
    StoredIsNearest(q, g);
    StoredIsNearest(src.quantity - q, g);
    SplitStores(src.quantity, q, g);
  }

  lemma PartitionRounds(receipts: seq<Receipt>, at: nat, q: int, status: ReceiptStatus, approval: ApprovalStatus,
                        client: string, txnType: Option<TxnType>, txnId: Option<Ref>, e: nat, g: int)
    requires g > 0 && at < |receipts| && !receipts[at].isParent && receipts[at].quantity % g == 0
    requires 0 < q <= receipts[at].quantity && status != SPLIT
    ensures Rounds(receipts, StoredChange(Split(at, Partition(receipts, at, q, status, approval, client, txnType,
                                                              txnId, e)), g), g,
                   IsHalf(q, g))
  {
    PartRounds(receipts[at], q, g);
    hide SplitSuffixes, ChildNumber, BaseReceiptNumber, Stored, IsHalf;
  }

  lemma ReleaseParts(db: Db, call: Call)
    requires call.op.ReleasePartial? && Plan(db, call).Ok?
    ensures call.op.receipt < |db.receipts| && Plan(db, call).value.change.Split?
    ensures var at, change := call.op.receipt, Plan(db, call).value.change;
            && change.at == at && |change.kids| == 2 && db.receipts[at].status == HELD_LIEN
            && 0 < call.op.quantity < db.receipts[at].quantity
            && change.kids[0].quantity == call.op.quantity
            && change.kids[1].quantity == db.receipts[at].quantity - call.op.quantity
            && change.kids[0].status == ACTIVE && change.kids[1].status == HELD_LIEN
            && (forall k :: 0 <= k < 2 ==>
                  && change.kids[k].parent == Some(at) && change.kids[k].root == db.receipts[at].root
                  && !change.kids[k].isParent)
  {
    hide SplitSuffixes, ChildNumber, BaseReceiptNumber, KeyUsed;
  }

  lemma ReleaseRounds(db: Db, call: Call, g: int)
    requires g > 0 && Rounded(db.receipts, g) && call.op.ReleasePartial? && Plan(db, call).Ok?
    ensures Rounds(db.receipts, StoredChange(Plan(db, call).value.change, g), g, IsHalf(call.op.quantity, g))
    ensures Plan(db, call).value.change.Split? && Plan(db, call).value.change.at == call.op.receipt
  {
    hide Plan, Stored, IsHalf;
    ReleaseParts(db, call);
    PartRounds(db.receipts[call.op.receipt], call.op.quantity, g);
  }

  lemma FlipRounds(db: Db, call: Call, g: int)
    requires Admitted(call.op) && g > 0 && Rounded(db.receipts, g) && Plan(db, call).Ok?
            && !Plan(db, call).value.change.Split?
    ensures Rounds(db.receipts, StoredChange(Plan(db, call).value.change, g), g, IsHalf(AskedQuantity(call.op), g))
  {
    if call.op.Deposit? {
      StoredIsNonnegative(call.op.quantity, g);
      StoredIsNearest(call.op.quantity, g);
    }
    hide Stored, IsHalf, Partition, Child, SplitSuffixes, KeyUsed, WithRelease;
  }

  lemma PlanRounds(db: Db, call: Call, g: int)
    requires Admitted(call.op) && g > 0 && Rounded(db.receipts, g) && Plan(db, call).Ok?
    ensures Rounds(db.receipts, StoredChange(Plan(db, call).value.change, g), g, IsHalf(AskedQuantity(call.op), g))
    ensures var change := Plan(db, call).value.change;
            change.Split? ==> !call.op.Deposit? && call.op.receipt == change.at
  {
    hide Rounds, StoredChange, IsHalf, Partition, Child, SplitSuffixes, KeyUsed, WithRelease;
    var e := |db.events|;
    match call.op
    case Hold(at, q, status, txnType, txnId) =>
      PartitionRounds(db.receipts, at, q, status, PENDING, db.receipts[at].client, Some(txnType), Some(txnId), e, g);
    case Seize(at, client, Some(q)) =>
      PartitionRounds(db.receipts, at, q, ReceiptStatus.SEIZED, APPROVED, client, Some(LOAN), db.receipts[at].txnId, e,
                      g);
    case ReleasePartial(_, _, _) => ReleaseRounds(db, call, g);
    case _ => FlipRounds(db, call, g);
  }

  /** The stored parts of a split against its source. */
  lemma StoredSum(receipts: seq<Receipt>, change: Change, g: int, half: bool)
    requires g > 0 && change.Split? && Rounds(receipts, StoredChange(change, g), g, half)
    ensures change.at < |receipts| && 1 <= |change.kids| <= 2
    ensures receipts[change.at].quantity + (if half then g else 0)
         == StoredRows(change.kids, g)[0].quantity + (if |change.kids| == 2 then StoredRows(change.kids, g)[1].quantity
                                                      else 0)
  {
  }

  function LeafShare(t: nat): Receipt -> int {
    (r: Receipt) => if r.root == t && !r.isParent then r.quantity else 0
  }

  function KidShare(p: nat): Receipt -> int {
    (r: Receipt) => if r.parent == Some(p) then r.quantity else 0
  }

  function RootQuantity(receipts: seq<Receipt>, t: nat): int {
    if t < |receipts| && receipts[t].parent.None? then receipts[t].quantity else 0
  }

  function ParentQuantity(receipts: seq<Receipt>, p: nat): int {
    if p < |receipts| && receipts[p].isParent then receipts[p].quantity else 0
  }

  lemma LeavesGain(receipts: seq<Receipt>, change: Change, g: int, half: bool, t: nat)
    requires g > 0 && Rounds(receipts, change, g, half)
    ensures Total(Changed(receipts, change), LeafShare(t)) - RootQuantity(Changed(receipts, change), t)
         == Total(receipts, LeafShare(t)) - RootQuantity(receipts, t)
            + (if change.Split? && half && receipts[change.at].root == t then g else 0)
  {
    TotalShifts(receipts, change, LeafShare(t));
    hide Total;
  }

  lemma KidsGain(receipts: seq<Receipt>, change: Change, g: int, half: bool, p: nat)
    requires g > 0 && Rounds(receipts, change, g, half)
    ensures Total(Changed(receipts, change), KidShare(p)) - ParentQuantity(Changed(receipts, change), p)
         == Total(receipts, KidShare(p)) - ParentQuantity(receipts, p)
            + (if change.Split? && half && change.at == p then g else 0)
    ensures p < |receipts| && receipts[p].isParent
           ==> p < |Changed(receipts, change)| && Changed(receipts, change)[p].isParent
    ensures change.Split? && change.at == p ==> p < |Changed(receipts, change)| && Changed(receipts, change)[p].isParent
  {
    TotalShifts(receipts, change, KidShare(p));
    hide Total;
  }

  lemma StaysRounded(receipts: seq<Receipt>, change: Change, g: int, half: bool)
    requires g > 0 && Rounded(receipts, g) && Rounds(receipts, change, g, half)
    ensures Rounded(Changed(receipts, change), g)
  {
  }

  /** What one call adds, with any quantity. */
  lemma CallGains(db: Db, call: Call, g: int, t: nat)
    requires g > 0 && Rounded(db.receipts, g)
    ensures var after := StoredInvoke(db, call, g).db.receipts;
            && Rounded(after, g)
            && Total(after, LeafShare(t)) - RootQuantity(after, t)
               == Total(db.receipts, LeafShare(t)) - RootQuantity(db.receipts, t)
                  + (if HalfSplit(db, call, g, InTreeOf(t)) then g else 0)
            && Total(after, KidShare(t)) - ParentQuantity(after, t)
               == Total(db.receipts, KidShare(t)) - ParentQuantity(db.receipts, t)
                  + (if HalfSplit(db, call, g, Exactly(t)) then g else 0)
            && (t < |db.receipts| && db.receipts[t].isParent ==> t < |after| && after[t].isParent)
            && (HalfSplit(db, call, g, Exactly(t)) ==> t < |after| && after[t].isParent)
  {
    hide Plan, Total, Rounded, Rounds, StoredChange, Collides, LeafShare, KidShare, IsHalf, Commits, StoredInvoke;
    StoredCallWrites(db, call, g);
    if Commits(db, call, g) {
      var change, half := StoredChange(Plan(db, call).value.change, g), IsHalf(AskedQuantity(call.op), g);
      CommittedIsAdmitted(db, call, g);
      PlanRounds(db, call, g);
      SameShape(Plan(db, call).value.change, g);
      StaysRounded(db.receipts, change, g, half);
      SplitsOnFile(db.receipts, change, g, half);
      LeavesGain(db.receipts, change, g, half, t);
      KidsGain(db.receipts, change, g, half, t);
    }
  }

  lemma SameShape(change: Change, g: int)
    requires g > 0
    ensures StoredChange(change, g).Split? == change.Split?
    ensures change.Split? ==> StoredChange(change, g).at == change.at
  {
  }

  lemma SplitsOnFile(receipts: seq<Receipt>, change: Change, g: int, half: bool)
    requires g > 0 && Rounds(receipts, change, g, half)
    ensures change.Split? ==> change.at < |receipts|
  {
  }

  /** The masses of a table in which `leaf` splits of tree `t` and `kid` splits of row `t`
      left half a grain over. */
  ghost predicate Gained(receipts: seq<Receipt>, g: int, t: nat, leaf: nat, kid: nat)
    requires g > 0
  {
    && Rounded(receipts, g)
    && Total(receipts, LeafShare(t)) == RootQuantity(receipts, t) + g * leaf
    && Total(receipts, KidShare(t)) == ParentQuantity(receipts, t) + g * kid
    && (kid > 0 ==> t < |receipts| && receipts[t].isParent)
  }

  lemma CallGainsOn(db: Db, call: Call, g: int, t: nat, leaf: nat, kid: nat)
    requires g > 0 && Gained(db.receipts, g, t, leaf, kid)
    ensures Gained(StoredInvoke(db, call, g).db.receipts, g, t,
                   leaf + (if HalfSplit(db, call, g, InTreeOf(t)) then 1 else 0),
                   kid + (if HalfSplit(db, call, g, Exactly(t)) then 1 else 0))
  {
    hide StoredInvoke, HalfSplit, Rounded, LeafShare, KidShare, InTreeOf, Total, RootQuantity, ParentQuantity;
    CallGains(db, call, g, t);
    assert g * (leaf + 1) == g * leaf + g && g * (kid + 1) == g * kid + g;
  }

  lemma {:induction false} RunGains(calls: seq<Call>, g: int, t: nat)
    requires g > 0
    ensures Gained(StoredRun(EMPTY_DB, calls, g).receipts, g, t,
                   HalfSplits(calls, g, InTreeOf(t)), HalfSplits(calls, g, Exactly(t)))
  {
    hide StoredInvoke, HalfSplit, InTreeOf, Exactly, Gained;
    if calls == [] {
      NothingGained(g, t);
    } else {
      var before, call := calls[..|calls| - 1], calls[|calls| - 1];
      RunGains(before, g, t);
      CallGainsOn(StoredRun(EMPTY_DB, before, g), call, g, t,
                  HalfSplits(before, g, InTreeOf(t)), HalfSplits(before, g, Exactly(t)));
    }
  }

  lemma RunIsRounded(calls: seq<Call>, g: int)
    requires g > 0
    ensures Rounded(StoredRun(EMPTY_DB, calls, g).receipts, g)
  {
    hide StoredRun, HalfSplits, Rounded;
    RunGains(calls, g, 0);
  }

  lemma NothingGained(g: int, t: nat)
    requires g > 0
    ensures Gained([], g, t, 0, 0)
  {
  }

  /** Conservation with any quantities, exactly: the leaves of a tree weigh a grain more
      than its root for every split in it that left half a grain over. So a tree
      reconciles after any run if and only if no split in it did. */
  lemma LeavesGainAGrainPerHalfSplit(calls: seq<Call>, g: int, t: nat)
    requires g > 0
    ensures var receipts := StoredRun(EMPTY_DB, calls, g).receipts;
            t < |receipts| && receipts[t].parent.None? ==>
              && Sum(QuantityColumn(receipts), LeavesOf(receipts, t))
                 == receipts[t].quantity + g * HalfSplits(calls, g, InTreeOf(t))
              && (Sum(QuantityColumn(receipts), LeavesOf(receipts, t)) == receipts[t].quantity
                  <==> HalfSplits(calls, g, InTreeOf(t)) == 0)
  {
    hide StoredRun, HalfSplits, InTreeOf, Total;
    var receipts := StoredRun(EMPTY_DB, calls, g).receipts;
    RunGains(calls, g, t);
    TotalIsSum(receipts, LeafShare(t), LeavesOf(receipts, t));
    Scaled(HalfSplits(calls, g, InTreeOf(t)), g);
  }

  /** The same of one split row and its direct children: after any run a row marked SPLIT
      weighs its children exactly if its own split left no half grain over. */
  lemma SplitRowBalancesIffNotHalf(calls: seq<Call>, g: int, p: nat)
    requires g > 0
    ensures var receipts := StoredRun(EMPTY_DB, calls, g).receipts;
            p < |receipts| && receipts[p].status == SPLIT ==>
              && KidSum(NodesOf(receipts), p) == receipts[p].quantity + g * HalfSplits(calls, g, Exactly(p))
              && (KidSum(NodesOf(receipts), p) == receipts[p].quantity <==> HalfSplits(calls, g, Exactly(p)) == 0)
  {
    hide StoredRun, HalfSplits, Exactly, Total;
    var receipts := StoredRun(EMPTY_DB, calls, g).receipts;
    RunGains(calls, g, p);
    TotalIsSum(receipts, KidShare(p), Kids(NodesOf(receipts), p));
    Scaled(HalfSplits(calls, g, Exactly(p)), g);
  }

  /** All split rows of a run weigh their children if and only if no call of it split with
      half a grain over. */
  lemma RunConservesIffNoHalfSplit(calls: seq<Call>, g: int)
    requires g > 0
    ensures var receipts := StoredRun(EMPTY_DB, calls, g).receipts;
            (forall p: nat :: p < |receipts| && receipts[p].status == SPLIT
               ==> receipts[p].quantity == KidSum(NodesOf(receipts), p))
            <==> forall p: nat :: HalfSplits(calls, g, Exactly(p)) == 0
  {
    hide StoredRun, HalfSplits, Exactly, KidSum;
    var receipts := StoredRun(EMPTY_DB, calls, g).receipts;
    forall p: nat
      ensures HalfSplits(calls, g, Exactly(p)) == 0
         <==> (p < |receipts| && receipts[p].status == SPLIT ==> receipts[p].quantity == KidSum(NodesOf(receipts), p))
    {
      RunGains(calls, g, p);
      SplitRowBalancesIffNotHalf(calls, g, p);
    }
  }
}
