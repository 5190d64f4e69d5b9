/** What every ledger call keeps, whatever its arguments, and so what holds after
    any sequence of calls. */
module LedgerInvariant {
  import opened InventoryTypes
  import opened ReceiptNumbers
  import opened Sequences
  import opened Forest
  import opened Ledger

  /** The shape a reconciliation looks at. */
  function NodesOf(receipts: seq<Receipt>): (nodes: seq<Forest.Node>)
    ensures |nodes| == |receipts|
    ensures forall i :: 0 <= i < |receipts| ==>
              nodes[i] == Forest.Node(receipts[i].parent, receipts[i].quantity, receipts[i].isParent)
  {
    seq(|receipts|, i requires 0 <= i < |receipts| =>
      Forest.Node(receipts[i].parent, receipts[i].quantity, receipts[i].isParent))
  }

  /** How far a receipt still can move. Every change of status goes strictly down. */
  function Rank(s: ReceiptStatus): nat {
    if s == HELD_PLEDGE_PENDING then 3
    else if s in HELD || s == PENDING_APPROVAL then 2
    else if s == ACTIVE then 1
    else 0
  }

  ghost predicate SameLineage(child: Receipt, parent: Receipt) {
    && child.root == parent.root
    && child.tenant == parent.tenant
    && child.commodity == parent.commodity
    && child.warehouse == parent.warehouse
  }

  ghost predicate LineageAt(receipts: seq<Receipt>, i: nat)
    requires i < |receipts|
  {
    var r := receipts[i];
    && r.root <= i && receipts[r.root].parent == None
    && (r.parent.None? ==> r.root == i)
    && (r.parent.Some? ==> r.parent.value < i && SameLineage(r, receipts[r.parent.value]))
  }

  ghost predicate Lineage(receipts: seq<Receipt>) {
    forall i: nat :: i < |receipts| ==> LineageAt(receipts, i)
  }

  ghost predicate RowRules(r: Receipt) {
    && (r.isParent <==> r.status == SPLIT)
    && (r.status == ACTIVE ==> r.approval == APPROVED)
    && (r.status == PENDING_APPROVAL ==> r.parent.None?)
    && (r.status in HELD ==> r.parent.Some? && r.txnType.Some? && r.txnId.Some?)
  }

  ghost predicate StatusRules(receipts: seq<Receipt>) {
    forall i: nat {:trigger RowRules(receipts[i])} :: i < |receipts| ==> RowRules(receipts[i])
  }

  ghost predicate EventFits(receipts: seq<Receipt>, ev: Event) {
    && ev.from < |receipts|
    && ev.root == receipts[ev.from].root
    && ev.tenant == receipts[ev.from].tenant
    && (ev.kind == Deposited ==> receipts[ev.from].parent.None? && ev.quantity == receipts[ev.from].quantity)
  }

  /** Events name rows on file. */
  ghost predicate EventsFit(db: Db) {
    forall e: nat {:trigger EventFits(db.receipts, db.events[e])} ::
      e < |db.events| ==> EventFits(db.receipts, db.events[e])
  }

  function Keys(events: seq<Event>): (keys: seq<Key>)
    ensures |keys| == |events|
    ensures forall e :: 0 <= e < |events| ==> keys[e] == events[e].key
  {
    seq(|events|, e requires 0 <= e < |events| => events[e].key)
  }

  ghost predicate SourcedAt(db: Db, i: nat)
    requires i < |db.receipts|
  {
    var r := db.receipts[i];
    && r.sourceEvent.Some? && r.sourceEvent.value < |db.events|
    && var ev := db.events[r.sourceEvent.value];
       if r.parent.None? then ev.kind == Deposited && ev.from == i
       else ev.kind in {HoldPlaced, HoldReleased, Seized} && ev.from == r.parent.value
  }

  /** Every row was minted by an event on file: a root by its deposit, a child by
      an event about its parent. */
  ghost predicate Sourced(db: Db) {
    forall i: nat :: i < |db.receipts| ==> SourcedAt(db, i)
  }

  /** Row `i` shares the base of its root's number. */
  ghost predicate SharesBase(receipts: seq<Receipt>, i: nat)
    requires i < |receipts|
  {
    && receipts[i].root < |receipts|
    && BaseReceiptNumber(receipts[i].number) == BaseReceiptNumber(receipts[receipts[i].root].number)
  }

  ghost predicate SharedBases(receipts: seq<Receipt>) {
    forall i: nat :: i < |receipts| ==> SharesBase(receipts, i)
  }

  ghost predicate Sound(db: Db) {
    && Lineage(db.receipts)
    && Conserved(NodesOf(db.receipts))
    && StatusRules(db.receipts)
    && EventsFit(db)
    && Distinct(Keys(db.events))
    && Sourced(db)
    && Distinct(Numbers(db.receipts))
    && SharedBases(db.receipts)
  }

  /** The part of it that does not look at quantities. */
  ghost predicate Framed(db: Db) {
    Lineage(db.receipts) && StatusRules(db.receipts) && Sourced(db)
  }

  lemma SoundIsFramed(db: Db)
    requires Sound(db)
    ensures Framed(db)
  {
  }

  // ----- What a plan may write ---------------------------------------------

  ghost predicate LawfulKid(db: Db, at: nat, kid: Receipt)
    requires at < |db.receipts|
  {
    && kid.parent == Some(at) && SameLineage(kid, db.receipts[at])
    && !kid.isParent && kid.quantity > 0 && RowRules(kid)
    && kid.sourceEvent == Some(|db.events|)
  }

  ghost predicate LawfulChange(db: Db, change: Change) {
    var receipts, n := db.receipts, |db.receipts|;
    match change
    case Mint(row) =>
      && row.parent.None? && row.root == n && !row.isParent && row.quantity > 0
      && RowRules(row) && row.sourceEvent == Some(|db.events|)
    case Rewrite(at, row) =>
      && at < n
      && row == receipts[at].(status := row.status, approval := row.approval, client := row.client)
      && (row.status == receipts[at].status || Rank(row.status) < Rank(receipts[at].status))
      && RowRules(row)
    case Split(at, kids) =>
      && at < n && !receipts[at].isParent && Rank(receipts[at].status) > 0
      && (|kids| == 1 || |kids| == 2)
      && LawfulKid(db, at, kids[0]) && (|kids| == 2 ==> LawfulKid(db, at, kids[1]))
      && receipts[at].quantity == kids[0].quantity + (if |kids| == 2 then kids[1].quantity else 0)
  }

  /** Kids take the suffixes a split hands out. */
  ghost predicate LawfulNumbers(db: Db, change: Change) {
    change.Split? ==>
      && change.at < |db.receipts| && 1 <= |change.kids| <= 2
      && var base := BaseReceiptNumber(db.receipts[change.at].number);
         var (first, second) := SplitSuffixes(db.receipts, change.at);
         && change.kids[0].number == ChildNumber(base, first)
         && (|change.kids| == 2 ==> change.kids[1].number == ChildNumber(base, second))
  }

  /** The first event is the one the new rows name as their source. */
  ghost predicate LawfulEvents(db: Db, w: Writes) {
    && (|w.events| == 1 || (|w.events| == 2 && w.events[0].key != w.events[1].key))
    && (match w.change
        case Mint(row) =>
          && |w.events| == 1 && w.events[0].kind == Deposited && w.events[0].from == w.events[0].root == |db.receipts|
          && w.events[0].tenant == row.tenant && w.events[0].quantity == row.quantity
        case Rewrite(at, _) =>
          && at < |db.receipts| && Follows(db, at, w.events[0]) && (|w.events| == 2 ==> Follows(db, at, w.events[1]))
        case Split(at, _) =>
          && at < |db.receipts| && |w.events| == 1 && Follows(db, at, w.events[0])
          && w.events[0].kind in {HoldPlaced, HoldReleased, Seized})
  }

  /** An event about a row that is already on file. */
  ghost predicate Follows(db: Db, at: nat, ev: Event)
    requires at < |db.receipts|
  {
    && ev.from == at && ev.kind != Deposited
    && ev.root == db.receipts[at].root && ev.tenant == db.receipts[at].tenant
  }

  ghost predicate Lawful(db: Db, w: Writes) {
    LawfulChange(db, w.change) && LawfulNumbers(db, w.change) && LawfulEvents(db, w)
  }

  /** A deposit of nothing is refused before any lookup. */
  predicate Admitted(op: Op) {
    op.Deposit? ==> op.quantity > 0
  }

  lemma PartitionIsLawful(db: Db, at: nat, primaryQty: int, status: ReceiptStatus, approval: ApprovalStatus,
                          client: string, txnType: Option<TxnType>, txnId: Option<Ref>)
    requires at < |db.receipts| && !db.receipts[at].isParent && Rank(db.receipts[at].status) > 0
    requires 0 < primaryQty <= db.receipts[at].quantity
    requires status == ReceiptStatus.SEIZED || (status in HELD && txnType.Some? && txnId.Some?)
    ensures LawfulChange(db, Split(at, Partition(db.receipts, at, primaryQty, status, approval, client,
                                                 txnType, txnId, |db.events|)))
  {
    hide SplitSuffixes, ChildNumber, BaseReceiptNumber;
  }

  lemma PlanSplitsLawfully(db: Db, call: Call)
    requires StatusRules(db.receipts)
    requires Plan(db, call).Ok? && Plan(db, call).value.change.Split?
    ensures LawfulChange(db, Plan(db, call).value.change)
  {
    hide SplitSuffixes, Numbers, ChildNumber, BaseReceiptNumber, KeyUsed, Partition;
    var at := call.op.receipt;
    var r := db.receipts[at];
    assert RowRules(r);
    hide StatusRules;
    if call.op.Hold? {
      PartitionIsLawful(db, at, call.op.quantity, call.op.heldStatus, PENDING, r.client,
                        Some(call.op.txnType), Some(call.op.txnId));
    } else if call.op.Seize? {
      PartitionIsLawful(db, at, call.op.partial.value, ReceiptStatus.SEIZED, APPROVED, call.op.client,
                        Some(LOAN), r.txnId);
    }
  }

  lemma PlanRewritesLawfully(db: Db, call: Call)
    requires StatusRules(db.receipts)
    requires Admitted(call.op) && Plan(db, call).Ok? && !Plan(db, call).value.change.Split?
    ensures LawfulChange(db, Plan(db, call).value.change)
  {
    hide Plan, LawfulChange, StatusRules;
    if call.op.ApproveHold? || call.op.Release? || call.op.Consume? || call.op.TransitionPledgeToLien? {
      HeldRewriteIsLawful(db, call);
    } else {
      OtherRewriteIsLawful(db, call);
    }
  }

  lemma HeldRewriteIsLawful(db: Db, call: Call)
    requires StatusRules(db.receipts) && Plan(db, call).Ok?
    requires call.op.ApproveHold? || call.op.Release? || call.op.Consume? || call.op.TransitionPledgeToLien?
    ensures LawfulChange(db, Plan(db, call).value.change)
  {
    hide SplitSuffixes, Numbers, Child, Partition, KeyUsed;
    assert RowRules(db.receipts[call.op.receipt]);
    hide StatusRules;
  }

  lemma OtherRewriteIsLawful(db: Db, call: Call)
    requires StatusRules(db.receipts)
    requires Admitted(call.op) && Plan(db, call).Ok? && !Plan(db, call).value.change.Split?
    requires !(call.op.ApproveHold? || call.op.Release? || call.op.Consume? || call.op.TransitionPledgeToLien?)
    ensures LawfulChange(db, Plan(db, call).value.change)
  {
    hide SplitSuffixes, Numbers, Child, Partition, KeyUsed;
    if !call.op.Deposit? {
      assert RowRules(db.receipts[call.op.receipt]);
      hide StatusRules;
    }
  }

  lemma PlanNumbersLawfully(db: Db, call: Call)
    requires Plan(db, call).Ok?
    ensures LawfulNumbers(db, Plan(db, call).value.change)
  {
    hide SplitSuffixes, Numbers, ChildNumber, BaseReceiptNumber, KeyUsed;
  }

  lemma PlanEventsLawfully(db: Db, call: Call)
    requires Plan(db, call).Ok?
    ensures LawfulEvents(db, Plan(db, call).value)
  {
    hide SplitSuffixes, Numbers, Child, KeyUsed;
    if call.op.TransferAndRelease? {
      WithReleaseDiffers(call.key);
    }
  }

  lemma PlanIsLawful(db: Db, call: Call)
    requires StatusRules(db.receipts)
    requires Admitted(call.op) && Plan(db, call).Ok?
    ensures Lawful(db, Plan(db, call).value)
  {
    hide Plan, LawfulChange, LawfulNumbers, LawfulEvents, StatusRules;
    if Plan(db, call).value.change.Split? {
      PlanSplitsLawfully(db, call);
    } else {
      PlanRewritesLawfully(db, call);
    }
    PlanNumbersLawfully(db, call);
    PlanEventsLawfully(db, call);
  }

  // ----- Each part of the invariant under a lawful write --------------------

  function After(db: Db, w: Writes): Db {
    Db(Changed(db.receipts, w.change), db.events + w.events)
  }

  lemma KeepsLineage(db: Db, change: Change)
    requires Lineage(db.receipts) && LawfulChange(db, change)
    ensures Lineage(Changed(db.receipts, change))
  {
    var before, after := db.receipts, Changed(db.receipts, change);
    forall i: nat | i < |after|
      ensures LineageAt(after, i)
    {
      if i < |before| {
        assert LineageAt(before, i);
      } else if change.Split? {
        assert LineageAt(before, change.at);
        assert after[i] == change.kids[i - |before|];
      }
    }
  }

  lemma KeepsStatusRules(db: Db, change: Change)
    requires StatusRules(db.receipts) && LawfulChange(db, change)
    ensures StatusRules(Changed(db.receipts, change))
  {
    var before, after := db.receipts, Changed(db.receipts, change);
    forall i: nat | i < |after|
      ensures RowRules(after[i])
    {
      if i < |before| {
        assert RowRules(before[i]);
      } else if change.Split? {
        assert after[i] == change.kids[i - |before|];
      }
    }
  }

  lemma KeepsConservation(db: Db, change: Change)
    requires Conserved(NodesOf(db.receipts)) && LawfulChange(db, change)
    ensures Conserved(NodesOf(Changed(db.receipts, change)))
  {
    var nodes, after := NodesOf(db.receipts), NodesOf(Changed(db.receipts, change));
    match change
    case Mint(row) =>
      MintConserves(nodes, Forest.Node(None, row.quantity, false));
      assert after == nodes + [Forest.Node(None, row.quantity, false)];
    case Rewrite(at, row) =>
      assert after == nodes;
    case Split(at, kids) =>
      SplitConserves(nodes, at, NodesOf(kids));
      assert after == AfterSplit(nodes, at, NodesOf(kids));
  }

  lemma KeepsEvents(db: Db, w: Writes)
    requires EventsFit(db) && Lawful(db, w)
    ensures EventsFit(After(db, w))
  {
    hide Rank, RowRules, SameLineage, LawfulNumbers;
    var after := After(db, w);
    assert forall i :: 0 <= i < |db.receipts| ==>
      && after.receipts[i].root == db.receipts[i].root && after.receipts[i].tenant == db.receipts[i].tenant
      && after.receipts[i].parent == db.receipts[i].parent && after.receipts[i].quantity == db.receipts[i].quantity;
    forall e: nat | e < |after.events|
      ensures EventFits(after.receipts, after.events[e])
    {
      if e < |db.events| {
        assert EventFits(db.receipts, db.events[e]);
      }
    }
  }

  lemma KeepsKeys(db: Db, w: Writes)
    requires Distinct(Keys(db.events)) && LawfulEvents(db, w) && !Collides(db, w)
    ensures Distinct(Keys(db.events + w.events))
  {
    forall k | 0 <= k < |w.events|
      ensures !KeyUsed(db.events, w.events[k].key)
    {
    }
    DistinctAppend(Keys(db.events), Keys(w.events));
    assert Keys(db.events + w.events) == Keys(db.events) + Keys(w.events);
  }

  lemma KeepsSources(db: Db, w: Writes)
    requires Sourced(db) && LawfulChange(db, w.change) && LawfulEvents(db, w)
    ensures Sourced(After(db, w))
  {
    hide Rank, RowRules, SameLineage;
    var n, after := |db.receipts|, After(db, w);
    assert after.events[|db.events|] == w.events[0];
    forall i: nat | i < |after.receipts|
      ensures SourcedAt(after, i)
    {
      if i < n {
        assert SourcedAt(db, i);
        assert after.receipts[i].sourceEvent == db.receipts[i].sourceEvent;
        assert after.receipts[i].parent == db.receipts[i].parent;
      } else {
        assert after.receipts[i] == NewRows(w.change)[i - n];
      }
    }
  }

  lemma KeepsNumbers(db: Db, w: Writes)
    requires Distinct(Numbers(db.receipts)) && !Collides(db, w)
    requires LawfulChange(db, w.change) && LawfulNumbers(db, w.change)
    ensures Distinct(Numbers(Changed(db.receipts, w.change)))
  {
    var onFile, minted := Numbers(db.receipts), Numbers(NewRows(w.change));
    NumbersAfter(db, w.change);
    MintedDiffer(db, w.change);
    hide LawfulChange, LawfulNumbers, Changed;
    DistinctAppend(onFile, minted);
  }

  lemma MintedDiffer(db: Db, change: Change)
    requires LawfulChange(db, change) && LawfulNumbers(db, change)
    ensures Distinct(Numbers(NewRows(change)))
  {
    hide ChildNumber, BaseReceiptNumber, ExistingSuffixes, NextFree, LawfulKid, IsSuffix;
    if change.Split? {
      SplitNumbersAreNew(Numbers(db.receipts), BaseReceiptNumber(db.receipts[change.at].number));
    }
  }

  lemma NumbersAfter(db: Db, change: Change)
    requires LawfulChange(db, change)
    ensures Numbers(Changed(db.receipts, change)) == Numbers(db.receipts) + Numbers(NewRows(change))
  {
  }

  lemma KeepsBases(db: Db, change: Change)
    requires Lineage(db.receipts) && SharedBases(db.receipts)
    requires LawfulChange(db, change) && LawfulNumbers(db, change)
    ensures SharedBases(Changed(db.receipts, change))
  {
    hide SplitSuffixes, ChildNumber, BaseReceiptNumber, RowRules, Rank;
    var before, after, n := db.receipts, Changed(db.receipts, change), |db.receipts|;
    assert forall i :: 0 <= i < n ==> after[i].number == before[i].number && after[i].root == before[i].root;
    if change.Split? {
      var base := BaseReceiptNumber(before[change.at].number);
      var (first, second) := SplitSuffixes(before, change.at);
      BaseOfChild(base, first);
      BaseOfChild(base, second);
      assert LineageAt(before, change.at) && SharesBase(before, change.at);
      assert BaseReceiptNumber(change.kids[0].number) == base;
      assert |change.kids| == 2 ==> BaseReceiptNumber(change.kids[1].number) == base;
    }
    forall i: nat | i < |after|
      ensures SharesBase(after, i)
    {
      if i < n {
        assert SharesBase(before, i);
      } else {
        assert after[i] == NewRows(change)[i - n];
      }
    }
  }

  // ----- Calls and runs ----------------------------------------------------

  /** A call either changes nothing or carries out its whole plan. */
  lemma CallWritesItsPlan(db: Db, call: Call)
    requires Sound(db)
    ensures var after := Invoke(db, call).db;
            after == db
            || (Plan(db, call).Ok?
                && var w := Plan(db, call).value;
                   Lawful(db, w) && !Collides(db, w) && after == After(db, w))
  {
    if Invoke(db, call).db != db {
      PlanIsLawful(db, call);
      hide Plan, Collides, Sound, Lawful;
    }
  }

  lemma LawfulWriteKeepsSound(db: Db, w: Writes)
    requires Sound(db) && Lawful(db, w) && !Collides(db, w)
    ensures Sound(After(db, w))
  {
    KeepsLineage(db, w.change);
    KeepsStatusRules(db, w.change);
    KeepsConservation(db, w.change);
    KeepsEvents(db, w);
    KeepsKeys(db, w);
    KeepsSources(db, w);
    KeepsNumbers(db, w);
    KeepsBases(db, w.change);
    hide Lineage, StatusRules, Conserved, EventsFit, Distinct, Sourced, SharedBases, Collides, LawfulChange,
         LawfulNumbers, LawfulEvents;
  }

  /** Every call keeps the invariant. */
  lemma CallKeepsSound(db: Db, call: Call)
    requires Sound(db)
    ensures Sound(Invoke(db, call).db)
  {
    CallWritesItsPlan(db, call);
    hide Sound, Plan, Lawful, Collides;
    if Invoke(db, call).db != db {
      LawfulWriteKeepsSound(db, Plan(db, call).value);
    }
  }

  lemma {:induction false} RunIsSound(db: Db, calls: seq<Call>)
    requires Sound(db)
    ensures Sound(Run(db, calls))
  {
    if calls != [] {
      RunIsSound(db, calls[..|calls| - 1]);
      CallKeepsSound(Run(db, calls[..|calls| - 1]), calls[|calls| - 1]);
    }
  }

  lemma EmptyIsSound()
    ensures Sound(EMPTY_DB)
  {
  }
}
