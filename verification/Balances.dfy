/** Client balances and what may change them (src/inventory/inventory-query.service.ts,
    lines 21-66; src/inventory/inventory-ledger.service.ts). */
module Balances {
  import opened InventoryTypes
  import opened ReceiptNumbers
  import opened Sequences
  import opened Ledger
  import opened LedgerInvariant
  import opened Totals

  predicate IsAvailable(r: Receipt, tenant: string, client: string) {
    r.tenant == tenant && r.client == client && r.status == ACTIVE && r.approval == APPROVED
  }

  predicate IsLocked(r: Receipt, tenant: string, client: string) {
    r.tenant == tenant && r.client == client && r.status in HELD
  }

  function AvailableShare(tenant: string, client: string, commodity: string): Receipt -> int {
    (r: Receipt) => if r.commodity == commodity && IsAvailable(r, tenant, client) then r.quantity else 0
  }

  function LockedShare(tenant: string, client: string, commodity: string): Receipt -> int {
    (r: Receipt) => if r.commodity == commodity && IsLocked(r, tenant, client) then r.quantity else 0
  }

  // ----- getBalance --------------------------------------------------------

  datatype Balance = Balance(available: int, locked: int)

  type Groups = seq<(string, int)>

  /** The group for a commodity, if the grouped query returned one. */
  function GroupSum(groups: Groups, commodity: string): Option<int> {
    if groups == [] then None
    else if groups[0].0 == commodity then Some(groups[0].1)
    else GroupSum(groups[1..], commodity)
  }

  function AddToGroup(groups: Groups, commodity: string, quantity: int): Groups {
    if groups == [] then [(commodity, quantity)]
    else if groups[0].0 == commodity then [(commodity, groups[0].1 + quantity)] + groups[1..]
    else [groups[0]] + AddToGroup(groups[1..], commodity, quantity)
  }

  /** `groupBy commodityId, _sum quantity` over the rows that match. */
  function GroupBy(receipts: seq<Receipt>, matches: Receipt -> bool): Groups {
    if receipts == [] then []
    else
      var n := |receipts| - 1;
      var earlier := GroupBy(receipts[..n], matches);
      if matches(receipts[n]) then AddToGroup(earlier, receipts[n].commodity, receipts[n].quantity) else earlier
  }

  lemma GroupSumOf(group: (string, int), rest: Groups, c: string)
    ensures GroupSum([group] + rest, c) == if group.0 == c then Some(group.1) else GroupSum(rest, c)
  {
    assert ([group] + rest)[1..] == rest;
  }

  lemma {:induction false} AddedToGroup(groups: Groups, commodity: string, quantity: int, c: string)
    ensures GroupSum(AddToGroup(groups, commodity, quantity), c)
         == if c == commodity
            then Some(quantity + (if GroupSum(groups, c).Some? then GroupSum(groups, c).value else 0))
            else GroupSum(groups, c)
  {
    hide GroupSum;
    if groups == [] {
      assert AddToGroup(groups, commodity, quantity) == [(commodity, quantity)] + [];
      GroupSumOf((commodity, quantity), [], c);
      NoGroup(c);
    } else {
      assert groups == [groups[0]] + groups[1..];
      GroupSumOf(groups[0], groups[1..], c);
      if groups[0].0 == commodity {
        GroupSumOf((commodity, groups[0].1 + quantity), groups[1..], c);
      } else {
        AddedToGroup(groups[1..], commodity, quantity, c);
        GroupSumOf(groups[0], AddToGroup(groups[1..], commodity, quantity), c);
      }
    }
  }

  lemma NoGroup(c: string)
    ensures GroupSum([], c).None?
  {
  }

  lemma {:induction false} GroupByIsTotal(receipts: seq<Receipt>, matches: Receipt -> bool, share: Receipt -> int,
                                          c: string)
    requires forall r :: r in receipts ==> share(r) == (if r.commodity == c && matches(r) then r.quantity else 0)
    ensures GroupSum(GroupBy(receipts, matches), c).Some?
           <==> exists r :: r in receipts && r.commodity == c && matches(r)
    ensures Total(receipts, share)
         == (if GroupSum(GroupBy(receipts, matches), c).Some? then GroupSum(GroupBy(receipts, matches), c).value else 0)
  {
    if receipts != [] {
      var n := |receipts| - 1;
      GroupByIsTotal(receipts[..n], matches, share, c);
      assert forall r :: r in receipts <==> r in receipts[..n] || r == receipts[n];
      if matches(receipts[n]) {
        AddedToGroup(GroupBy(receipts[..n], matches), receipts[n].commodity, receipts[n].quantity, c);
      }
    }
  }

  /** A grouped query returns each commodity once. */
  predicate Grouped(groups: Groups) {
    forall i, j :: 0 <= i < j < |groups| ==> groups[i].0 != groups[j].0
  }

  lemma {:induction false} AddKeepsGrouped(groups: Groups, commodity: string, quantity: int)
    requires Grouped(groups)
    ensures Grouped(AddToGroup(groups, commodity, quantity))
    ensures forall g :: g in AddToGroup(groups, commodity, quantity) ==>
              g.0 == commodity || exists h :: h in groups && h.0 == g.0
  {
    if groups != [] && groups[0].0 != commodity {
      AddKeepsGrouped(groups[1..], commodity, quantity);
      var rest := AddToGroup(groups[1..], commodity, quantity);
      forall j | 0 <= j < |rest|
        ensures rest[j].0 != groups[0].0
      {
        assert rest[j] in rest;
      }
    }
  }

  lemma {:induction false} GroupByIsGrouped(receipts: seq<Receipt>, matches: Receipt -> bool)
    ensures Grouped(GroupBy(receipts, matches))
  {
    if receipts != [] {
      var n := |receipts| - 1;
      GroupByIsGrouped(receipts[..n], matches);
      if matches(receipts[n]) {
        AddKeepsGrouped(GroupBy(receipts[..n], matches), receipts[n].commodity, receipts[n].quantity);
      }
    }
  }

  lemma {:induction false} GroupSumGrows(groups: Groups, i: nat, c: string)
    requires Grouped(groups) && i < |groups|
    ensures GroupSum(groups[..i + 1], c) == if c == groups[i].0 then Some(groups[i].1) else GroupSum(groups[..i], c)
    ensures GroupSum(groups[..i], groups[i].0) == None
  {
    if i > 0 {
      GroupSumGrows(groups[1..], i - 1, c);
      assert groups[..i + 1][1..] == groups[1..][..i] && groups[..i][1..] == groups[1..][..i - 1];
    }
  }

  function OrZero(x: Option<int>): int {
    if x.Some? then x.value else 0
  }

  /** The accumulator holds one entry per commodity that either query returned. */
  ghost predicate Accumulated(acc: map<string, Balance>, available: Groups, locked: Groups) {
    forall c ::
      && (c in acc <==> GroupSum(available, c).Some? || GroupSum(locked, c).Some?)
      && (c in acc ==> acc[c] == Balance(OrZero(GroupSum(available, c)), OrZero(GroupSum(locked, c))))
  }

  /** What the accumulator of `getBalance` means in terms of the rows. */
  lemma AccumulatedBalances(receipts: seq<Receipt>, tenant: string, client: string, acc: map<string, Balance>)
    requires Accumulated(acc, GroupBy(receipts, (r: Receipt) => IsAvailable(r, tenant, client)),
                              GroupBy(receipts, (r: Receipt) => IsLocked(r, tenant, client)))
    ensures forall c :: c in acc <==>
              exists r ::
                r in receipts && r.commodity == c && (IsAvailable(r, tenant, client) || IsLocked(r, tenant, client))
    ensures forall c :: c in acc ==>
              && acc[c].available == Total(receipts, AvailableShare(tenant, client, c))
              && acc[c].locked == Total(receipts, LockedShare(tenant, client, c))
  {
    hide GroupBy, Total;
    forall c
      ensures c in acc <==>
        exists r :: r in receipts && r.commodity == c && (IsAvailable(r, tenant, client) || IsLocked(r, tenant, client))
      ensures c in acc ==>
        && acc[c].available == Total(receipts, AvailableShare(tenant, client, c))
        && acc[c].locked == Total(receipts, LockedShare(tenant, client, c))
    {
      GroupByIsTotal(receipts, (r: Receipt) => IsAvailable(r, tenant, client), AvailableShare(tenant, client, c), c);
      GroupByIsTotal(receipts, (r: Receipt) => IsLocked(r, tenant, client), LockedShare(tenant, client, c), c);
    }
  }

  /** `getBalance`: two grouped queries poured into one accumulator. */
  method GetBalance(receipts: seq<Receipt>, tenant: string, client: string) returns (acc: map<string, Balance>)
    ensures forall c :: c in acc <==>
              exists r ::
                r in receipts && r.commodity == c && (IsAvailable(r, tenant, client) || IsLocked(r, tenant, client))
    ensures forall c :: c in acc ==>
              && acc[c].available == Total(receipts, AvailableShare(tenant, client, c))
              && acc[c].locked == Total(receipts, LockedShare(tenant, client, c))
  {
    hide Total, GroupBy;
    var available := GroupBy(receipts, (r: Receipt) => IsAvailable(r, tenant, client));
    var locked := GroupBy(receipts, (r: Receipt) => IsLocked(r, tenant, client));
    GroupByIsGrouped(receipts, (r: Receipt) => IsAvailable(r, tenant, client));
    GroupByIsGrouped(receipts, (r: Receipt) => IsLocked(r, tenant, client));
    acc := map[];
    for i := 0 to |available|
      invariant Accumulated(acc, available[..i], [])
    {
      forall c { GroupSumGrows(available, i, c); }
      acc := acc[available[i].0 := Balance(available[i].1, 0)];
    }
    assert available[..|available|] == available;
    for i := 0 to |locked|
      invariant Accumulated(acc, available, locked[..i])
    {
      var c := locked[i].0;
      forall d { GroupSumGrows(locked, i, d); }
      acc := acc[c := Balance(if c in acc then acc[c].available else 0, locked[i].1)];
    }
    assert locked[..|locked|] == locked;
    AccumulatedBalances(receipts, tenant, client, acc);
  }

  // ----- What moves balances -----------------------------------------------

  /** Everything on the clients' books of one tenant and commodity. */
  function BookShare(tenant: string, commodity: string): Receipt -> int {
    (r: Receipt) =>
      if r.tenant == tenant && r.commodity == commodity
        && ((r.status == ACTIVE && r.approval == APPROVED) || r.status in HELD)
      then r.quantity else 0
  }

  function ClientsTotal(receipts: seq<Receipt>, clients: seq<string>, tenant: string, commodity: string): int {
    if clients == [] then 0
    else ClientsTotal(receipts, clients[1..], tenant, commodity)
         + Total(receipts, AvailableShare(tenant, clients[0], commodity))
         + Total(receipts, LockedShare(tenant, clients[0], commodity))
  }

  function BookShareOf(clients: seq<string>, tenant: string, commodity: string): Receipt -> int {
    (r: Receipt) => if r.client in clients then BookShare(tenant, commodity)(r) else 0
  }

  lemma {:induction false} ClientsTotalIsBook(receipts: seq<Receipt>, clients: seq<string>, tenant: string,
                                              commodity: string)
    requires Distinct(clients)
    ensures ClientsTotal(receipts, clients, tenant, commodity)
         == Total(receipts, BookShareOf(clients, tenant, commodity))
  {
    var whole := BookShareOf(clients, tenant, commodity);
    if clients == [] {
      TotalNonnegative(receipts, whole);
    } else {
      var rest := BookShareOf(clients[1..], tenant, commodity);
      var available, locked := AvailableShare(tenant, clients[0], commodity),
        LockedShare(tenant, clients[0], commodity);
      ClientsTotalIsBook(receipts, clients[1..], tenant, commodity);
      var both := (r: Receipt) => available(r) + locked(r);
      assert clients[0] !in clients[1..];
      assert forall c :: c in clients <==> c == clients[0] || c in clients[1..];
      TotalAdds(receipts, available, locked, both);
      forall r | r in receipts
        ensures whole(r) == rest(r) + both(r)
      {
        assert r.client in clients <==> r.client == clients[0] || r.client in clients[1..];
        assert both(r) == available(r) + locked(r);
        assert r.client == clients[0] ==> BookShare(tenant, commodity)(r) == both(r) && rest(r) == 0;
        assert r.client != clients[0] ==> both(r) == 0;
      }
      TotalAdds(receipts, rest, both, whole);
    }
  }

  /** The balances of all clients add up to the book. */
  lemma BalancesAddUp(receipts: seq<Receipt>, clients: seq<string>, tenant: string, commodity: string)
    requires Distinct(clients) && forall r :: r in receipts ==> r.client in clients
    ensures ClientsTotal(receipts, clients, tenant, commodity) == Total(receipts, BookShare(tenant, commodity))
  {
    ClientsTotalIsBook(receipts, clients, tenant, commodity);
    TotalAgree(receipts, BookShareOf(clients, tenant, commodity), BookShare(tenant, commodity));
  }

  function When(cond: bool, x: int): int {
    if cond then x else 0
  }

  /** How a committed call moves the book of its receipt's tenant and commodity. */
  function BookMove(r: Receipt, op: Op): int {
    match op
    case ApproveReceipt(_) => r.quantity
    case Consume(_) => -r.quantity
    case Expire(_) => -r.quantity
    case Seize(_, _, partial) => if partial.Some? then -partial.value else -r.quantity
    case _ => 0
  }

  /** What the balances see of a child: its share of the source, its state and its owner. */
  ghost predicate KidIs(kid: Receipt, src: Receipt, quantity: int, status: ReceiptStatus, approval: ApprovalStatus,
                        client: string) {
    && kid.tenant == src.tenant && kid.commodity == src.commodity
    && kid.quantity == quantity && kid.status == status && kid.approval == approval && kid.client == client
  }

  /** The children of a split, as far as the balances see them. */
  ghost predicate KidsAre(kids: seq<Receipt>, src: Receipt, op: Op) {
    match op
    case Hold(_, quantity, heldStatus, _, _) =>
      && heldStatus in HELD && |kids| == (if src.quantity - quantity > 0 then 2 else 1) && quantity <= src.quantity
      && src.status == ACTIVE && src.approval == APPROVED
      && KidIs(kids[0], src, quantity, heldStatus, PENDING, src.client)
      && (|kids| == 2 ==> KidIs(kids[1], src, src.quantity - quantity, ACTIVE, APPROVED, src.client))
    case ReleasePartial(_, quantity, _) =>
      && |kids| == 2 && src.status == HELD_LIEN
      && KidIs(kids[0], src, quantity, ACTIVE, APPROVED, src.client)
      && KidIs(kids[1], src, src.quantity - quantity, HELD_LIEN, src.approval, src.client)
    case Seize(_, client, partial) =>
      && partial.Some? && |kids| == 2 && src.status == HELD_LOAN
      && KidIs(kids[0], src, partial.value, ReceiptStatus.SEIZED, APPROVED, client)
      && KidIs(kids[1], src, src.quantity - partial.value, ACTIVE, APPROVED, src.client)
    case _ => false
  }

  lemma SplitKids(db: Db, call: Call, w: Writes)
    requires Plan(db, call) == Ok(w) && w.change.Split?
    ensures !call.op.Deposit? && w.change.at == call.op.receipt < |db.receipts|
    ensures KidsAre(w.change.kids, db.receipts[call.op.receipt], call.op)
  {
    hide SplitSuffixes, ChildNumber, BaseReceiptNumber, KeyUsed;
  }

  /** What the balances see of a rewritten row. */
  ghost predicate RowIs(row: Receipt, r: Receipt, op: Op) {
    && row == r.(status := row.status, approval := row.approval, client := row.client)
    && match op
       case ApproveReceipt(_) => r.status == PENDING_APPROVAL && row.status == ACTIVE && row.approval == APPROVED
         && row.client == r.client
       case RejectReceipt(_) => r.status == PENDING_APPROVAL && row.status == CANCELLED && row.client == r.client
       case ApproveHold(_) => r.status in HELD && row.status == r.status && row.client == r.client
       case Release(_) => r.status in HELD && row.status == ACTIVE && row.approval == APPROVED && row.client == r.client
       case TransitionPledgeToLien(_, _) => r.status in HELD && row.status == HELD_LIEN && row.client == r.client
       case Consume(_) => r.status in HELD && row.status == WITHDRAWN && row.client == r.client
       case Seize(_, client, partial) =>
         partial.None? && r.status == HELD_LOAN && row.status == ReceiptStatus.SEIZED && row.client == client
       case TransferOwnership(_, client, _, _) => row.status == r.status && row.approval == r.approval
         && row.client == client
       case TransferAndRelease(_, client, _, _) =>
         r.status in HELD && row.status == ACTIVE && row.approval == APPROVED && row.client == client
       case Expire(_) => r.status == ACTIVE && row.status == ReceiptStatus.EXPIRED && row.client == r.client
       case _ => false
  }

  lemma RewrittenRow(db: Db, call: Call, w: Writes)
    requires Plan(db, call) == Ok(w) && w.change.Rewrite?
    ensures !call.op.Deposit? && w.change.at == call.op.receipt < |db.receipts|
    ensures RowIs(w.change.row, db.receipts[call.op.receipt], call.op)
  {
    hide SplitSuffixes, Child, Partition, KeyUsed;
  }

  lemma SplitMovesBook(db: Db, call: Call, w: Writes, tenant: string, commodity: string)
    requires Plan(db, call) == Ok(w) && w.change.Split?
    ensures !call.op.Deposit? && call.op.receipt < |db.receipts|
    ensures var r := db.receipts[call.op.receipt];
            Shift(db.receipts, w.change, BookShare(tenant, commodity))
            == When(r.tenant == tenant && r.commodity == commodity, BookMove(r, call.op))
  {
    hide Plan;
    SplitKids(db, call, w);
  }

  lemma RewriteMovesBook(db: Db, call: Call, w: Writes, tenant: string, commodity: string)
    requires RowRulesAt(db, call) && Plan(db, call) == Ok(w) && w.change.Rewrite?
    ensures !call.op.Deposit? && call.op.receipt < |db.receipts|
    ensures var r := db.receipts[call.op.receipt];
            Shift(db.receipts, w.change, BookShare(tenant, commodity))
            == When(r.tenant == tenant && r.commodity == commodity, BookMove(r, call.op))
  {
    hide Plan;
    RewrittenRow(db, call, w);
  }

  ghost predicate RowRulesAt(db: Db, call: Call) {
    !call.op.Deposit? ==> call.op.receipt < |db.receipts| && RowRules(db.receipts[call.op.receipt])
  }

  lemma PlanMovesBook(db: Db, call: Call, w: Writes, tenant: string, commodity: string)
    requires Sound(db) && Plan(db, call) == Ok(w)
    ensures Shift(db.receipts, w.change, BookShare(tenant, commodity))
         == if call.op.Deposit? then 0
            else
              var r := db.receipts[call.op.receipt];
              When(r.tenant == tenant && r.commodity == commodity, BookMove(r, call.op))
  {
    hide BookShare, Shift, Sound, Partition, Child, SplitSuffixes;
    if w.change.Split? {
      hide Plan;
      SplitMovesBook(db, call, w, tenant, commodity);
    } else if w.change.Rewrite? {
      RowRulesHold(db, call);
      RewriteMovesBook(db, call, w, tenant, commodity);
    } else {
      MintMovesBook(db.receipts, w.change.row, tenant, commodity);
    }
  }

  lemma RowRulesHold(db: Db, call: Call)
    requires Sound(db) && Plan(db, call).Ok?
    ensures RowRulesAt(db, call)
  {
    hide Partition, Child, SplitSuffixes;
    if !call.op.Deposit? {
      assert RowRules(db.receipts[call.op.receipt]);
    }
  }

  lemma MintMovesBook(receipts: seq<Receipt>, row: Receipt, tenant: string, commodity: string)
    requires row.status == PENDING_APPROVAL
    ensures Shift(receipts, Mint(row), BookShare(tenant, commodity)) == 0
  {
  }

  /** Balance conservation across owners: summed over all clients, the books of a
      commodity change only by an approved deposit, a consumption, an expiry or a
      seizure, each by its own quantity; holding, releasing and transferring change
      nothing. */
  lemma BookIsConserved(db: Db, call: Call, tenant: string, commodity: string)
    requires Sound(db)
    ensures var after := Invoke(db, call).db;
            Total(after.receipts, BookShare(tenant, commodity)) - Total(db.receipts, BookShare(tenant, commodity))
            == if after == db || call.op.Deposit? then 0
               else
                 var r := db.receipts[call.op.receipt];
                 When(r.tenant == tenant && r.commodity == commodity, BookMove(r, call.op))
  {
    hide Sound, BookShare, Collides, LawfulNumbers, LawfulEvents, Changed, Total, Shift, BookMove;
    CallWritesItsPlan(db, call);
    if Invoke(db, call).db != db {
      var w := Plan(db, call).value;
      PlanMovesBook(db, call, w, tenant, commodity);
      TotalShifts(db.receipts, w.change, BookShare(tenant, commodity));
    }
  }

  // ----- One client's columns ----------------------------------------------

  /** How a committed call moves the available column of a client, for the receipt's own
      tenant and commodity. */
  function AvailableMove(r: Receipt, op: Op, client: string): int {
    match op
    case ApproveReceipt(_) => When(client == r.client, r.quantity)
    case Hold(_, quantity, _, _, _) => -When(client == r.client, quantity)
    case Release(_) => When(client == r.client, r.quantity)
    case ReleasePartial(_, quantity, _) => When(client == r.client, quantity)
    case Seize(_, _, partial) => if partial.Some? then When(client == r.client, r.quantity - partial.value) else 0
    case TransferOwnership(_, to, _, _) =>
      When(r.status == ACTIVE, When(client == to, r.quantity) - When(client == r.client, r.quantity))
    case TransferAndRelease(_, to, _, _) => When(client == to, r.quantity)
    case Expire(_) => -When(client == r.client, r.quantity)
    case _ => 0
  }

  /** And how it moves the locked column. */
  function LockedMove(r: Receipt, op: Op, client: string): int {
    match op
    case Hold(_, quantity, _, _, _) => When(client == r.client, quantity)
    case Release(_) => -When(client == r.client, r.quantity)
    case ReleasePartial(_, quantity, _) => -When(client == r.client, quantity)
    case Consume(_) => -When(client == r.client, r.quantity)
    case Seize(_, _, _) => -When(client == r.client, r.quantity)
    case TransferOwnership(_, to, _, _) =>
      When(r.status in HELD, When(client == to, r.quantity) - When(client == r.client, r.quantity))
    case TransferAndRelease(_, _, _, _) => -When(client == r.client, r.quantity)
    case _ => 0
  }

  lemma SplitMovesColumns(db: Db, call: Call, w: Writes, tenant: string, client: string, commodity: string)
    requires Plan(db, call) == Ok(w) && w.change.Split?
    ensures !call.op.Deposit? && call.op.receipt < |db.receipts|
    ensures var r := db.receipts[call.op.receipt];
            var mine := r.tenant == tenant && r.commodity == commodity;
            && Shift(db.receipts, w.change, AvailableShare(tenant, client, commodity))
               == When(mine, AvailableMove(r, call.op, client))
            && Shift(db.receipts, w.change, LockedShare(tenant, client, commodity))
               == When(mine, LockedMove(r, call.op, client))
  {
    hide Plan;
    SplitKids(db, call, w);
  }

  lemma RewriteMovesColumns(db: Db, call: Call, w: Writes, tenant: string, client: string, commodity: string)
    requires RowRulesAt(db, call) && Plan(db, call) == Ok(w) && w.change.Rewrite?
    ensures !call.op.Deposit? && call.op.receipt < |db.receipts|
    ensures var r := db.receipts[call.op.receipt];
            var mine := r.tenant == tenant && r.commodity == commodity;
            && Shift(db.receipts, w.change, AvailableShare(tenant, client, commodity))
               == When(mine, AvailableMove(r, call.op, client))
            && Shift(db.receipts, w.change, LockedShare(tenant, client, commodity))
               == When(mine, LockedMove(r, call.op, client))
  {
    hide Plan;
    RewrittenRow(db, call, w);
  }

  lemma MintMovesNoColumn(receipts: seq<Receipt>, row: Receipt, tenant: string, client: string, commodity: string)
    requires row.status == PENDING_APPROVAL
    ensures Shift(receipts, Mint(row), AvailableShare(tenant, client, commodity)) == 0
    ensures Shift(receipts, Mint(row), LockedShare(tenant, client, commodity)) == 0
  {
  }

  lemma MintedAwaitsApproval(db: Db, call: Call, w: Writes)
    requires Plan(db, call) == Ok(w) && w.change.Mint?
    ensures call.op.Deposit? && w.change.row.status == PENDING_APPROVAL
  {
    hide SplitSuffixes, Child, Partition, KeyUsed;
  }

  /** Every balance after any call: for every tenant, client and commodity, the available
      and the locked column move by what the call says of its own receipt's tenant,
      commodity and owners, and every other column stays as it was. */
  lemma CallMovesColumns(db: Db, call: Call, tenant: string, client: string, commodity: string)
    requires Sound(db)
    ensures var after := Invoke(db, call).db;
            if after == db || call.op.Deposit? then
              && Total(after.receipts, AvailableShare(tenant, client, commodity))
                 == Total(db.receipts, AvailableShare(tenant, client, commodity))
              && Total(after.receipts, LockedShare(tenant, client, commodity))
                 == Total(db.receipts, LockedShare(tenant, client, commodity))
            else
              && call.op.receipt < |db.receipts|
              && var r := db.receipts[call.op.receipt];
                 var mine := r.tenant == tenant && r.commodity == commodity;
                 && Total(after.receipts, AvailableShare(tenant, client, commodity))
                    == Total(db.receipts, AvailableShare(tenant, client, commodity))
                       + When(mine, AvailableMove(r, call.op, client))
                 && Total(after.receipts, LockedShare(tenant, client, commodity))
                    == Total(db.receipts, LockedShare(tenant, client, commodity))
                       + When(mine, LockedMove(r, call.op, client))
  {
    hide Sound, Plan, Invoke, Lawful, Collides, Total, AvailableShare, LockedShare, Shift, AvailableMove, LockedMove;
    CallWritesItsPlan(db, call);
    if Invoke(db, call).db != db {
      var w := Plan(db, call).value;
      if w.change.Split? {
        SplitMovesColumns(db, call, w, tenant, client, commodity);
        SplitKids(db, call, w);
      } else if w.change.Rewrite? {
        RowRulesHold(db, call);
        RewriteMovesColumns(db, call, w, tenant, client, commodity);
        RewrittenRow(db, call, w);
      } else {
        MintedAwaitsApproval(db, call, w);
        MintMovesNoColumn(db.receipts, w.change.row, tenant, client, commodity);
      }
      TotalShifts(db.receipts, w.change, AvailableShare(tenant, client, commodity));
      TotalShifts(db.receipts, w.change, LockedShare(tenant, client, commodity));
    }
  }

  /** A committed hold moves the held quantity from the available to the locked column of
      the receipt's own client, and moves no other column of anybody. */
  lemma HoldMovesColumns(db: Db, call: Call, tenant: string, client: string, commodity: string)
    requires Sound(db) && call.op.Hold? && Invoke(db, call).db != db
    ensures call.op.receipt < |db.receipts|
    ensures var r, after := db.receipts[call.op.receipt], Invoke(db, call).db.receipts;
            var moved := When(r.tenant == tenant && r.commodity == commodity && r.client == client, call.op.quantity);
            && Total(after, AvailableShare(tenant, client, commodity))
               == Total(db.receipts, AvailableShare(tenant, client, commodity)) - moved
            && Total(after, LockedShare(tenant, client, commodity))
               == Total(db.receipts, LockedShare(tenant, client, commodity)) + moved
  {
    hide Sound, Invoke, Total, AvailableShare, LockedShare;
    CallMovesColumns(db, call, tenant, client, commodity);
  }

  /** A committed settlement moves exactly the held quantity from the owner's locked column
      to the buyer's available column, in one step, and moves no other column. */
  lemma TransferMovesColumns(db: Db, call: Call, tenant: string, client: string, commodity: string)
    requires Sound(db) && call.op.TransferAndRelease? && Invoke(db, call).db != db
    ensures call.op.receipt < |db.receipts|
    ensures var r, after := db.receipts[call.op.receipt], Invoke(db, call).db.receipts;
            var mine := r.tenant == tenant && r.commodity == commodity;
            && Total(after, LockedShare(tenant, client, commodity))
               == Total(db.receipts, LockedShare(tenant, client, commodity))
                  - When(mine && client == r.client, r.quantity)
            && Total(after, AvailableShare(tenant, client, commodity))
               == Total(db.receipts, AvailableShare(tenant, client, commodity))
               + When(mine && client == call.op.client, r.quantity)
  {
    hide Sound, Invoke, Total, AvailableShare, LockedShare;
    CallMovesColumns(db, call, tenant, client, commodity);
  }

  /** A committed release, full or partial, is the reverse of holding what it releases. */
  lemma ReleaseMovesColumns(db: Db, call: Call, tenant: string, client: string, commodity: string)
    requires Sound(db) && (call.op.Release? || call.op.ReleasePartial?) && Invoke(db, call).db != db
    ensures call.op.receipt < |db.receipts|
    ensures var r, after := db.receipts[call.op.receipt], Invoke(db, call).db.receipts;
            var released := if call.op.Release? then r.quantity else call.op.quantity;
            var moved := When(r.tenant == tenant && r.commodity == commodity && r.client == client, released);
            && Total(after, LockedShare(tenant, client, commodity))
               == Total(db.receipts, LockedShare(tenant, client, commodity)) - moved
            && Total(after, AvailableShare(tenant, client, commodity))
               == Total(db.receipts, AvailableShare(tenant, client, commodity)) + moved
  {
    hide Sound, Invoke, Total, AvailableShare, LockedShare;
    CallMovesColumns(db, call, tenant, client, commodity);
  }
}
