/** Concrete runs, from the empty database, that reach what the exact conditions of the
    other modules are about. The services start with a deposit put on file and approved
    at the desk; quantities and the grain of the columns are parameters as far as a run
    does not depend on them. */
module Scenarios {
  import opened InventoryTypes
  import opened ReceiptNumbers
  import opened Mass
  import opened Ledger
  import opened LedgerInvariant
  import opened Conservation
  import ExactlyOnce
  import opened Totals
  import opened Replay
  import opened Tables
  import opened Services
  import opened Coupling
  import opened ApprovalLoop
  import opened Reachable
  import opened Encumbrance
  import opened ApprovalCrash
  import opened ApprovalRetry
  import opened Decimals
  import opened DecimalServices
  import opened LineByLine
  import opened DecimalCoupling
  import opened DecimalReachable

  const FARMER := User("farmer", "tenant")

  function DeskKey(step: Word): Key {
    Part(Text(ReceiptWord), Part(Text(step), End))
  }

  function DepositCall(total: int): Call {
    Call("tenant", DeskKey(ManagerDepositWord), Deposit("farmer", "maize", "warehouse", total, "GN-1"))
  }

  function ApproveCall(): Call {
    Call("tenant", DeskKey(ApproveWord), ApproveReceipt(0))
  }

  function StockRow(total: int, status: ReceiptStatus, approval: ApprovalStatus): Receipt {
    Receipt("GN-1", status, approval, "tenant", "maize", "warehouse", total, "farmer", None, 0, false, Some(DEPOSIT),
            None, Some(0))
  }

  function DepositEvent(total: int): Event {
    Event("tenant", 0, 0, Deposited, Some(DEPOSIT), None, total, DeskKey(ManagerDepositWord), None)
  }

  function ApproveEvent(total: int): Event {
    Event("tenant", 0, 0, EventKind.Approved, Some(DEPOSIT), None, total, DeskKey(ApproveWord), None)
  }

  /** One approved root on file. */
  function Stocked(total: int): Db {
    Db([StockRow(total, ACTIVE, APPROVED)], [DepositEvent(total), ApproveEvent(total)])
  }

  lemma DepositIsFiled(total: int, g: int)
    requires g > 0 && total > 0 && total % g == 0
    ensures StoredInvoke(EMPTY_DB, DepositCall(total), g).db
         == Db([StockRow(total, PENDING_APPROVAL, PENDING)], [DepositEvent(total)])
  {
    StoredIsNearest(total, g);
    hide Stored;
    var w := Writes([DepositEvent(total)], Mint(StockRow(total, PENDING_APPROVAL, PENDING)));
    assert Plan(EMPTY_DB, DepositCall(total)) == Ok(w);
    assert !Collides(EMPTY_DB, w);
    assert StoredEvents(w.events, g) == w.events;
  }

  lemma StockIsApproved(total: int, g: int)
    requires g > 0 && total > 0 && total % g == 0
    ensures StoredInvoke(Db([StockRow(total, PENDING_APPROVAL, PENDING)], [DepositEvent(total)]), ApproveCall(), g).db
         == Stocked(total)
  {
    StoredIsNearest(total, g);
    hide Stored;
    var db := Db([StockRow(total, PENDING_APPROVAL, PENDING)], [DepositEvent(total)]);
    var w := Writes([ApproveEvent(total)], Rewrite(0, StockRow(total, ACTIVE, APPROVED)));
    assert Plan(db, ApproveCall()) == Ok(w);
    assert db.events[..0] == [];
    assert FindEvent(db.events, ApproveCall().key).None?;
    assert !Collides(db, w);
    assert StoredEvents(w.events, g) == w.events;
  }

  // ----- A partial seizure ---------------------------------------------------

  function LoanHold(): Call {
    Call("tenant", LoanKey(0, HoldWord), Hold(0, 10, HELD_LOAN, LOAN, Uuid(0)))
  }

  function SeizeCall(): Call {
    Call("tenant", LoanKey(0, TransferWord), Ledger.Seize(1, "financier", Some(4)))
  }

  function SeizingRun(): seq<Call> {
    [DepositCall(10), ApproveCall(), LoanHold(), SeizeCall()]
  }

  lemma StockedRun()
    ensures Run(EMPTY_DB, [DepositCall(10), ApproveCall()]) == Stocked(10) && Sound(Stocked(10))
  {
    hide Invoke, StoredInvoke, Sound;
    var calls := [DepositCall(10), ApproveCall()];
    assert calls[..1] == [DepositCall(10)] && calls[..1][..0] == [];
    DepositIsFiled(10, 1);
    StockIsApproved(10, 1);
    ExactAtOne(EMPTY_DB, DepositCall(10));
    ExactAtOne(Db([StockRow(10, PENDING_APPROVAL, PENDING)], [DepositEvent(10)]), ApproveCall());
    EmptyIsSound();
    RunIsSound(EMPTY_DB, calls);
  }

  lemma OnlyDeskKeys(total: int, key: Key)
    requires KeyUsed(Stocked(total).events, key)
    ensures key == DeskKey(ManagerDepositWord) || key == DeskKey(ApproveWord)
  {
  }

  lemma LoanIsHeld()
    ensures var db := Invoke(Stocked(10), LoanHold()).db;
            && Sound(db) && |db.receipts| == 2 && |db.events| == 3
            && db.receipts[1].status == HELD_LOAN && db.receipts[1].quantity == 10 && db.receipts[1].root == 0
            && db.receipts[1].tenant == "tenant" && db.receipts[1].parent == Some(0)
            && !KeyUsed(db.events, SeizeCall().key)
  {
    StockedRun();
    hide Invoke, Sound, SplitSuffixes, ChildNumber, BaseReceiptNumber, KeyUsed, Numbers;
    var db, call := Stocked(10), LoanHold();
    assert Plan(db, call).Ok?;
    forall key | Uses(call, key)
      ensures !KeyUsed(db.events, key)
    {
      if KeyUsed(db.events, key) { OnlyDeskKeys(10, key); }
    }
    UnusedKeyCommits(db, call);
    if KeyUsed(db.events, SeizeCall().key) { OnlyDeskKeys(10, SeizeCall().key); }
  }

  lemma SeizureHandsBack(db: Db)
    requires Sound(db) && |db.receipts| == 2 && !KeyUsed(db.events, SeizeCall().key)
    requires db.receipts[1].status == HELD_LOAN && db.receipts[1].quantity == 10 && db.receipts[1].root == 0
    requires db.receipts[1].tenant == "tenant"
    ensures var after := Invoke(db, SeizeCall()).db;
            && |after.receipts| == 4 && after.receipts[3].root == 0 && after.receipts[3].quantity == 6
            && after.receipts[3].status == ACTIVE && HandedBack(after.events, after.receipts[3])
  {
    hide Invoke, Sound, SplitSuffixes, ChildNumber, BaseReceiptNumber, KeyUsed, Numbers;
    assert Plan(db, SeizeCall()).Ok?;
    UnusedKeyCommits(db, SeizeCall());
    var after := Invoke(db, SeizeCall()).db;
    assert after.events[|db.events|].kind == EventKind.Seized;
  }

  /** The failing side of `ReplayAgreesExactly` is reached: hold ten on a loan, seize four
      of them, and the log of the tree no longer replays to the tree. */
  lemma SeizureDefeatsReplay()
    ensures var db := Run(EMPTY_DB, SeizingRun());
            && |db.receipts| == 4 && db.receipts[3].root == 0 && HandedBack(db.events, db.receipts[3])
            && !(forall b :: Replayed(db.events, 0, b) == InTree(db.receipts, 0, b))
  {
    hide Invoke, Sound, HandedBack, Replayed, InTree;
    var calls := SeizingRun();
    assert calls[..3][..2] == [DepositCall(10), ApproveCall()];
    assert calls[..3][2] == LoanHold() && calls[3] == SeizeCall();
    StockedRun();
    LoanIsHeld();
    assert Run(EMPTY_DB, calls[..3]) == Invoke(Stocked(10), LoanHold()).db;
    SeizureHandsBack(Run(EMPTY_DB, calls[..3]));
    assert Run(EMPTY_DB, calls) == Invoke(Run(EMPTY_DB, calls[..3]), SeizeCall()).db;
    ReplayAgreesExactly(calls, 0);
    var db := Run(EMPTY_DB, calls);
    assert db.receipts[3] in db.receipts;
  }

  // ----- A pledge, accepted ---------------------------------------------------

  function PledgeOf(id: nat, quantity: int): Action {
    CreatePledge(id, FARMER, 0, "financier", quantity, true, 1)
  }

  const ACCEPT := AcceptPledge(0, "financier", true)

  const APPROVE := ApproveReleaseRequest(0, "financier", true)

  function Request1(quantity: int): Action {
    CreateReleaseRequest(FARMER, "financier", [LineInput(0, quantity)])
  }

  /** Deposit, approve, pledge and accept. */
  function PledgingRun(total: int, quantity: int): seq<Action> {
    [LedgerDesk(DepositCall(total)), LedgerDesk(ApproveCall()), PledgeOf(0, quantity), ACCEPT]
  }

  function StockedWorld(total: int): World {
    EMPTY_WORLD.(db := Stocked(total))
  }

  lemma StockedActions(total: int, g: int)
    requires g > 0 && total > 0 && total % g == 0
    ensures StoredRunActions(EMPTY_WORLD, [LedgerDesk(DepositCall(total))], g)
         == EMPTY_WORLD.(db := Db([StockRow(total, PENDING_APPROVAL, PENDING)], [DepositEvent(total)]))
    ensures StoredRunActions(EMPTY_WORLD, [LedgerDesk(DepositCall(total)), LedgerDesk(ApproveCall())], g)
         == StockedWorld(total)
  {
    var first := LedgerDesk(DepositCall(total));
    var both := [first, LedgerDesk(ApproveCall())];
    assert [first][..0] == [] && both[..1] == [first];
    DeskUnfolds(EMPTY_WORLD, first, g);
    DepositIsFiled(total, g);
    var deposited := EMPTY_WORLD.(db := Db([StockRow(total, PENDING_APPROVAL, PENDING)], [DepositEvent(total)]));
    DeskUnfolds(deposited, LedgerDesk(ApproveCall()), g);
    StockIsApproved(total, g);
    hide StoredInvoke, StoredPerform;
  }

  /** A receipt of `total` with `quantity` of it pledged, before or after acceptance. */
  ghost predicate Pledged(w: World, total: int, quantity: int, g: int, status: ReceiptStatus)
    requires g > 0
  {
    && |w.db.receipts| == 3 && w.now == 0 && w.requests == [] && w.withdrawals == []
    && w.db.receipts[0] == Superseded(StockRow(total, ACTIVE, APPROVED))
    && w.db.receipts[1].status == status && w.db.receipts[1].quantity == Stored(quantity, g)
    && w.db.receipts[2].status == ACTIVE && w.db.receipts[2].quantity == Stored(total - quantity, g)
    && w.db.receipts[2].client == "farmer"
    && (forall i :: 1 <= i < 3 ==>
          w.db.receipts[i].tenant == "tenant" && w.db.receipts[i].root == 0 && w.db.receipts[i].parent == Some(0))
    && (forall line: nat :: !KeyUsed(w.db.events, LineKey(FullWord, 0, line))
                            && !KeyUsed(w.db.events, LineKey(PartialWord, 0, line)))
    && w.pledges.Keys == {0}
  }

  ghost predicate AwaitingAcceptance(w: World, total: int, quantity: int, g: int)
    requires g > 0
  {
    && Pledged(w, total, quantity, g, HELD_PLEDGE_PENDING) && w.liens == map[]
    && w.pledges[0] == Pledge("tenant", 0, Some(1), FARMER, "financier", quantity, PledgeStatus.Pending, 1)
    && !KeyUsed(w.db.events, PledgeKey(AcceptWord, 0))
  }

  /** After acceptance the lien is for the pledged quantity, on the pledge's leaf. */
  ghost predicate UnderLien(w: World, total: int, quantity: int, g: int)
    requires g > 0
  {
    && Pledged(w, total, quantity, g, HELD_LIEN)
    && w.liens == map[0 := Lien("tenant", 1, FARMER, "financier", quantity, quantity, LienStatus.Active, false)]
  }

  lemma StockIsItsTree(total: int)
    ensures TreeMass(Stocked(total).receipts, 0, {ACTIVE}) == total
  {
    var receipts := Stocked(total).receipts;
    assert TreeRows(receipts, 0, {ACTIVE}) == {0};
    SumSingle(QuantityColumn(receipts), 0);
  }

  function PledgeHold(quantity: int): Call {
    Call("tenant", PledgeKey(CreateWord, 0), Hold(0, quantity, HELD_PLEDGE_PENDING, PLEDGE, Uuid(0)))
  }

  lemma StockIsHeld(total: int, quantity: int, g: int)
    requires g > 0 && 0 < quantity < total && total % g == 0
    ensures var o := StoredInvoke(Stocked(total), PledgeHold(quantity), g);
            && o.reply == Ok(HoldReply(0, Some(1), Some(2))) && |o.db.receipts| == 3
            && o.db.receipts[0] == Superseded(StockRow(total, ACTIVE, APPROVED))
            && o.db.receipts[1].status == HELD_PLEDGE_PENDING && o.db.receipts[1].quantity == Stored(quantity, g)
            && o.db.receipts[2].status == ACTIVE && o.db.receipts[2].quantity == Stored(total - quantity, g)
            && o.db.receipts[2].client == "farmer"
            && (forall i :: 1 <= i < 3 ==> o.db.receipts[i].tenant == "tenant" && o.db.receipts[i].root == 0
                                           && o.db.receipts[i].parent == Some(0))
  {
    hide StoredInvoke, SplitSuffixes, ChildNumber, BaseReceiptNumber, KeyUsed, Numbers, Stored;
    var db, call := Stocked(total), PledgeHold(quantity);
    assert Plan(db, call).Ok?;
    forall key | Uses(call, key)
      ensures !KeyUsed(db.events, key)
    {
      if KeyUsed(db.events, key) { OnlyDeskKeys(total, key); }
    }
    StoredCallCommits(db, call, g);
  }

  lemma KeysAfterHold(total: int, quantity: int, g: int, key: Key)
    requires g > 0 && 0 < quantity < total && total % g == 0
    requires KeyUsed(StoredInvoke(Stocked(total), PledgeHold(quantity), g).db.events, key)
    ensures key in {DeskKey(ManagerDepositWord), DeskKey(ApproveWord), PledgeKey(CreateWord, 0)}
  {
    hide StoredInvoke, KeyUsed, Stocked;
    var db, call := Stocked(total), PledgeHold(quantity);
    ExactlyOnce.FoundIsUsed(db.events, call.key);
    if KeyUsed(db.events, key) {
      OnlyDeskKeys(total, key);
    } else {
      LineOrHoldFiles(db, call, g);
      KeyUsedAppend(db.events, StoredInvoke(db, call, g).db.events[|db.events|..], key);
    }
  }

  /** A call that splits files nothing but its own key. */
  lemma LineOrHoldFiles(db: Db, call: Call, g: int)
    requires g > 0 && call.op.Hold?
    ensures var events := StoredInvoke(db, call, g).db.events;
            && |db.events| <= |events| && events == db.events + events[|db.events|..]
            && forall e :: |db.events| <= e < |events| ==> events[e].key == call.key
  {
    hide SplitSuffixes, Child, KeyUsed, Collides, StoredChange, FindEvent;
  }

  lemma PledgeIsHeld(total: int, quantity: int, g: int)
    requires g > 0 && 0 < quantity < total && total % g == 0
    ensures AwaitingAcceptance(StoredPerform(StockedWorld(total), PledgeOf(0, quantity), g).world, total, quantity, g)
  {
    hide TreeMass, StoredInvoke, KeyUsed, Stored;
    var w, a := StockedWorld(total), PledgeOf(0, quantity);
    StockIsItsTree(total);
    assert GateOf(w, a).Proceed?;
    assert LedgerCall(w, a) == Some(PledgeHold(quantity));
    StockIsHeld(total, quantity, g);
    var v := StoredPerform(w, a, g).world;
    forall key
      ensures KeyUsed(v.db.events, key)
             ==> key in {DeskKey(ManagerDepositWord), DeskKey(ApproveWord), PledgeKey(CreateWord, 0)}
    {
      if KeyUsed(v.db.events, key) { KeysAfterHold(total, quantity, g, key); }
    }
  }

  lemma PledgeIsAccepted(w: World, total: int, quantity: int, g: int)
    requires g > 0 && AwaitingAcceptance(w, total, quantity, g)
    ensures UnderLien(StoredPerform(w, ACCEPT, g).world, total, quantity, g)
  {
    hide StoredInvoke, KeyUsed, Stored, Plan;
    AcceptCommits(w, total, quantity, g);
    assert GateOf(w, ACCEPT).Proceed? && LedgerCall(w, ACCEPT) == Some(AcceptCall());
  }

  function AcceptCall(): Call {
    Call("tenant", PledgeKey(AcceptWord, 0), TransitionPledgeToLien(1, Uuid(0)))
  }

  lemma AcceptCommits(w: World, total: int, quantity: int, g: int)
    requires g > 0 && AwaitingAcceptance(w, total, quantity, g)
    ensures var o := StoredInvoke(w.db, AcceptCall(), g);
            && o.reply == Ok(Reply.Node(1))
            && o.db.receipts == w.db.receipts[1 := w.db.receipts[1].(status := HELD_LIEN)]
            && forall line: nat ::
                 && !KeyUsed(o.db.events, LineKey(FullWord, 0, line))
                 && !KeyUsed(o.db.events, LineKey(PartialWord, 0, line))
  {
    hide StoredInvoke, SplitSuffixes, Child, KeyUsed, Numbers, Stored;
    var call := AcceptCall();
    assert Plan(w.db, call).Ok?;
    StoredCallCommits(w.db, call, g);
    var events := StoredEvents(Plan(w.db, call).value.events, g);
    forall line: nat
      ensures !KeyUsed(w.db.events + events, LineKey(FullWord, 0, line))
      ensures !KeyUsed(w.db.events + events, LineKey(PartialWord, 0, line))
    {
      KeyUsedAppend(w.db.events, events, LineKey(FullWord, 0, line));
      KeyUsedAppend(w.db.events, events, LineKey(PartialWord, 0, line));
    }
  }

  lemma PledgingRunLeads(total: int, quantity: int, g: int)
    requires g > 0 && 0 < quantity < total && total % g == 0
    ensures StoredRunActions(EMPTY_WORLD, PledgingRun(total, quantity)[..2], g) == StockedWorld(total)
    ensures AwaitingAcceptance(StoredRunActions(EMPTY_WORLD, PledgingRun(total, quantity)[..3], g), total, quantity, g)
    ensures UnderLien(StoredRunActions(EMPTY_WORLD, PledgingRun(total, quantity), g), total, quantity, g)
  {
    hide StoredPerform, AwaitingAcceptance, UnderLien;
    var run := PledgingRun(total, quantity);
    StockedActions(total, g);
    PledgeIsHeld(total, quantity, g);
    PledgeIsAccepted(StoredPerform(StockedWorld(total), PledgeOf(0, quantity), g).world, total, quantity, g);
    assert run[..2] == [LedgerDesk(DepositCall(total)), LedgerDesk(ApproveCall())];
    assert run[..3][..2] == run[..2] && run[..3][2] == PledgeOf(0, quantity);
    assert run[..4][..3] == run[..3] && run[..4] == run;
  }

  // ----- Quantities the columns do not store exactly ---------------------------

  /** 1.0005 of 10.000, in ten-thousandths over columns of thousandths: the leaf weighs
      1.001 and the remainder 9.000, the split row still 10.000, and the lien says 1.0005. */
  lemma HalfAGrainIsCountedTwice()
    ensures var w := StoredRunActions(EMPTY_WORLD, PledgingRun(100000, 10005), 10);
            && |w.db.receipts| == 3 && w.db.receipts[0].status == SPLIT && w.db.receipts[0].quantity == 100000
            && w.db.receipts[1].parent == w.db.receipts[2].parent == Some(0)
            && w.db.receipts[1].quantity == 10010 && w.db.receipts[2].quantity == 90000
            && 0 in w.liens && w.liens[0].receipt == 1 && w.liens[0].remaining == 10005
  {
    hide StoredRunActions;
    PledgingRunLeads(100000, 10005, 10);
  }

  lemma HoldIsLogged(quantity: int, g: int)
    requires g > 0 && 0 < quantity < 100000 && 100000 % g == 0
    ensures var events := StoredInvoke(Stocked(100000), PledgeHold(quantity), g).db.events;
            && |events| == 3 && events == [DepositEvent(100000), ApproveEvent(100000), events[2]]
            && events[2].kind == HoldPlaced && events[2].root == 0 && events[2].quantity == Stored(quantity, g)
  {
    hide StoredInvoke, SplitSuffixes, ChildNumber, BaseReceiptNumber, KeyUsed, Numbers, Stored;
    var db, call := Stocked(100000), PledgeHold(quantity);
    assert Plan(db, call).Ok?;
    forall key | Uses(call, key)
      ensures !KeyUsed(db.events, key)
    {
      if KeyUsed(db.events, key) { OnlyDeskKeys(100000, key); }
    }
    StoredCallCommits(db, call, g);
  }

  lemma HalfAGrainRows()
    ensures var receipts := StoredInvoke(Stocked(100000), PledgeHold(10005), 10).db.receipts;
            && |receipts| == 3 && receipts[0].status == SPLIT && receipts[1].status == HELD_PLEDGE_PENDING
            && receipts[2].status == ACTIVE && receipts[0].parent.None?
            && receipts[0].quantity == 100000 && receipts[1].quantity == 10010 && receipts[2].quantity == 90000
            && forall i :: 0 <= i < 3 ==> receipts[i].tenant == "tenant" && receipts[i].root == 0
  {
    hide StoredInvoke;
    StockIsHeld(100000, 10005, 10);
  }

  /** The same hold on the ledger alone: its event tells of 1.001 leaving the available mass, of
      which 9.000 are left; the log says 8.999, and nothing was handed back. The buckets of the
      receipt add up to 10.001. */
  lemma HalfAGrainIsNotLogged()
    ensures var db := StoredInvoke(Stocked(100000), PledgeHold(10005), 10).db;
            && Replayed(db.events, 0, Available) == 89990 && InTree(db.receipts, 0, Available) == 90000
            && HandedBackMass(db, 0) == 0
            && TreeMass(db.receipts, 0, {ACTIVE}) + TreeMass(db.receipts, 0, {HELD_PLEDGE_PENDING}) == 100010
            && db.receipts != [] && db.receipts[0].quantity == 100000
  {
    hide StoredInvoke, Stored, TreeMass, Total, Replayed;
    var db := StoredInvoke(Stocked(100000), PledgeHold(10005), 10).db;
    HalfAGrainRows();
    HoldIsLogged(10005, 10);
    StoredParts();
    ThreeEvents(db.events, 0, Available);
    ThreeRows(db.receipts, BucketShare(0, Available));
    ThreeRows(db.receipts, HandedBackShare(db.events, 0));
    HeldTreeMass(db.receipts);
  }

  lemma StoredParts()
    ensures Stored(10005, 10) == 10010
  {
  }

  lemma ThreeEvents(events: seq<Event>, t: nat, b: Bucket)
    requires |events| == 3 && forall e :: 0 <= e < 3 ==> events[e].root == t
    ensures Replayed(events, t, b) == Says(events[0], b) + Says(events[1], b) + Says(events[2], b)
  {
    hide Says;
    ReplayOne([], events[0], t, b);
    ReplayOne([events[0]], events[1], t, b);
    ReplayOne([events[0], events[1]], events[2], t, b);
    assert [] + [events[0]] == [events[0]] && [events[0]] + [events[1]] == [events[0], events[1]];
    assert events == [events[0], events[1]] + [events[2]];
  }

  lemma ThreeRows(receipts: seq<Receipt>, share: Receipt -> int)
    requires |receipts| == 3
    ensures Total(receipts, share) == share(receipts[0]) + share(receipts[1]) + share(receipts[2])
  {
    hide Total;
    TotalPush([], receipts[0], share);
    TotalPush([receipts[0]], receipts[1], share);
    TotalPush([receipts[0], receipts[1]], receipts[2], share);
    assert [] + [receipts[0]] == [receipts[0]] && [receipts[0]] + [receipts[1]] == [receipts[0], receipts[1]];
    assert receipts == [receipts[0], receipts[1]] + [receipts[2]];
    NoRows(share);
  }

  lemma NoRows(share: Receipt -> int)
    ensures Total([], share) == 0
  {
  }

  lemma HeldTreeMass(receipts: seq<Receipt>)
    requires |receipts| == 3 && receipts[0].status == SPLIT && receipts[1].status in HELD
            && receipts[2].status == ACTIVE
    requires forall i :: 0 <= i < 3 ==> receipts[i].tenant == "tenant" && receipts[i].root == 0
    ensures TreeMass(receipts, 0, {receipts[1].status}) == receipts[1].quantity
    ensures TreeMass(receipts, 0, {ACTIVE}) == receipts[2].quantity
  {
    assert TreeRows(receipts, 0, {receipts[1].status}) == {1};
    assert TreeRows(receipts, 0, {ACTIVE}) == {2};
    SumSingle(QuantityColumn(receipts), 1);
    SumSingle(QuantityColumn(receipts), 2);
  }

  lemma RequestIsFiled(w: World, total: int, quantity: int, asked: int, g: int)
    requires g > 0 && UnderLien(w, total, quantity, g) && 0 < asked <= quantity
    ensures StoredPerform(w, Request1(asked), g)
         == Served(w.(requests := [Request("tenant", FARMER, "financier", [Line(0, 1, asked)],
                                           RequestStatus.Pending)]), Done)
  {
    var inputs := [LineInput(0, asked)];
    assert inputs[1..] == [];
    assert CheckLine(w, FARMER, "financier", inputs[0]).Proceed?;
    assert LinesOf(w, inputs) == [Line(0, 1, asked)];
    hide KeyUsed, Stored;
  }

  lemma RequestIsPending(w: World, total: int, quantity: int, asked: int, g: int)
    requires g > 0 && UnderLien(w, total, quantity, g) && 0 < asked <= quantity
    ensures var v := StoredPerform(w, Request1(asked), g).world;
            && v == w.(requests := v.requests) && |v.requests| == 1 && v.requests[0].lines == [Line(0, 1, asked)]
            && GateOf(v, APPROVE).Proceed? && ReadyToApprove(v, 0)
  {
    RequestIsFiled(w, total, quantity, asked, g);
    hide KeyUsed, Stored, StoredPerform;
  }

  /** 1.0004 leaves a leaf of 1.000 under a lien of 1.0004. A request for 1.0001 less than
      that lien passes both checks on the row, and the ledger refuses it. */
  lemma RoundedLeafFallsShort()
    ensures var w := StoredRunActions(EMPTY_WORLD, PledgingRun(100000, 10004) + [Request1(10001)], 10);
            && GateOf(w, APPROVE).Proceed? && w.liens.Keys == {0} && w.liens[0].remaining == 10004
            && w.db.receipts != [] && |w.db.receipts| == 3 && w.db.receipts[1].quantity == 10000
            && StoredPerform(w, APPROVE, 10) == Served(w, Verdict.Refused(LedgerRefused(InsufficientQuantity)))
  {
    hide StoredRunActions, ReadyToApprove, GateOf, StoredPerform, StoredInvoke, Plan, FindEvent, Releasable;
    var run := PledgingRun(100000, 10004);
    PledgingRunLeads(100000, 10004, 10);
    var v := StoredRunActions(EMPTY_WORLD, run, 10);
    RequestIsPending(v, 100000, 10004, 10001, 10);
    OneMore(run, Request1(10001), 10);
    var w := StoredRunActions(EMPTY_WORLD, run + [Request1(10001)], 10);
    HeldLineGoes(w, 0, 0, 10);
    UnplannedIsRefused(w.db, CallOf(w, 0, 0), 10);
    ApprovingIsStored(w, 10);
    assert StoredReleaseLines(w, w.liens, 0, 0, 10) == Served(w, Done);
  }

  /** The whole of that lien, requested: 1.0004 are pending on a leaf of 1.000. */
  lemma PendingExceedsLiened()
    ensures var w := StoredRunActions(EMPTY_WORLD, PledgingRun(100000, 10004) + [Request1(10004)], 10);
            && PendingOn(w.requests, TreeRows(w.db.receipts, 0, {HELD_LIEN})) == 10004
            && TreeMass(w.db.receipts, 0, {HELD_LIEN}) == 10000
  {
    hide StoredRunActions, ReadyToApprove, GateOf, StoredPerform;
    var run := PledgingRun(100000, 10004);
    PledgingRunLeads(100000, 10004, 10);
    var v := StoredRunActions(EMPTY_WORLD, run, 10);
    RequestIsFiled(v, 100000, 10004, 10004, 10);
    OneMore(run, Request1(10004), 10);
    var w := StoredRunActions(EMPTY_WORLD, run + [Request1(10004)], 10);
    HeldTreeMass(w.db.receipts);
    assert TreeRows(w.db.receipts, 0, {HELD_LIEN}) == {1};
    OneLinePending(w.requests[0], 1);
  }

  lemma OneLinePending(r: Request, leaf: nat)
    requires r.status.Pending? && |r.lines| == 1 && r.lines[0].receipt == leaf
    ensures PendingOn([r], {leaf}) == r.lines[0].quantity
  {
    assert [r][..0] == [] && PendingOn([], {leaf}) == 0;
    assert PendingOn([r], {leaf}) == LinesOn(r.lines, {leaf});
    assert r.lines[..0] == [] && LinesOn([], {leaf}) == 0;
  }

  lemma OneMore(run: seq<Action>, a: Action, g: int)
    requires g > 0
    ensures StoredRunActions(EMPTY_WORLD, run + [a], g)
         == StoredPerform(StoredRunActions(EMPTY_WORLD, run, g), a, g).world
  {
    assert (run + [a])[..|run|] == run;
    hide StoredPerform;
  }

  lemma ApprovingIsStored(w: World, g: int)
    requires g > 0 && GateOf(w, APPROVE).Proceed?
    ensures 0 < |w.requests| && Releasable(w, w.requests[0].lines)
    ensures StoredPerform(w, APPROVE, g) == StoredApproveRequest(w, 0, g)
  {
    hide StoredReleaseLines, Releasable;
  }

  // ----- Runs of the exact services ----------------------------------------------

  lemma RunsAreExact(actions: seq<Action>)
    ensures StoredRunActions(EMPTY_WORLD, actions, 1) == RunActions(EMPTY_WORLD, actions)
  {
    hide StoredPerform, Perform;
    WholeActionsAreExact(actions, 1);
  }

  lemma OneMoreAction(run: seq<Action>, a: Action)
    ensures RunActions(EMPTY_WORLD, run + [a]) == Perform(RunActions(EMPTY_WORLD, run), a).world
    ensures AdmissibleRun(run + [a]) <==> AdmissibleRun(run) && Admissible(RunActions(EMPTY_WORLD, run), a)
  {
    assert (run + [a])[..|run|] == run;
    hide Perform, Admissible;
  }

  lemma DeskIsAdmissible(w: World, a: Action)
    requires a.LedgerDesk? && (a.call == ApproveCall() || exists total :: a.call == DepositCall(total))
    ensures Admissible(w, a)
  {
  }

  lemma ServiceIsAdmissible(w: World, a: Action)
    requires || a == ACCEPT || a == APPROVE || (exists asked :: a == Request1(asked))
             || (a.CreatePledge? && a.id !in w.pledges)
    ensures Admissible(w, a)
  {
  }

  /** The invariant is not kept of nothing: this run of services is admissible. */
  lemma PledgingIsAdmissible(total: int, quantity: int)
    requires 0 < quantity < total
    ensures AdmissibleRun(PledgingRun(total, quantity)[..3]) && AdmissibleRun(PledgingRun(total, quantity))
    ensures AwaitingAcceptance(RunActions(EMPTY_WORLD, PledgingRun(total, quantity)[..3]), total, quantity, 1)
    ensures UnderLien(RunActions(EMPTY_WORLD, PledgingRun(total, quantity)), total, quantity, 1)
  {
    hide RunActions, StoredRunActions, Admissible, AwaitingAcceptance, UnderLien;
    var run := PledgingRun(total, quantity);
    PledgingRunLeads(total, quantity, 1);
    RunsAreExact(run[..2]);
    RunsAreExact(run[..3]);
    RunsAreExact(run);
    assert run[..1] == [] + [run[0]] && run[..2] == run[..1] + [run[1]] && run[..3] == run[..2]
      + [run[2]] && run == run[..3] + [run[3]];
    assert AdmissibleRun([]);
    OneMoreAction([], run[0]);
    OneMoreAction(run[..1], run[1]);
    OneMoreAction(run[..2], run[2]);
    OneMoreAction(run[..3], run[3]);
    DeskIsAdmissible(RunActions(EMPTY_WORLD, []), run[0]);
    DeskIsAdmissible(RunActions(EMPTY_WORLD, run[..1]), run[1]);
    ServiceIsAdmissible(RunActions(EMPTY_WORLD, run[..2]), run[2]);
    ServiceIsAdmissible(RunActions(EMPTY_WORLD, run[..3]), run[3]);
  }

  lemma LeftOfTheStock(w: World, total: int, quantity: int)
    requires 0 < quantity < total && AwaitingAcceptance(w, total, quantity, 1)
    ensures TreeMass(w.db.receipts, 0, {ACTIVE}) == total - quantity
  {
    var receipts := w.db.receipts;
    StoredIsNearest(total - quantity, 1);
    assert TreeRows(receipts, 0, {ACTIVE}) == {2};
    SumSingle(QuantityColumn(receipts), 2);
  }

  /** A split receipt passes the checks on a pledge and is refused by the ledger: four of
      ten are pledged, and then three of the same receipt. */
  lemma SplitReceiptPassesTheChecks()
    ensures var w, a := RunActions(EMPTY_WORLD, PledgingRun(10, 4)[..3]), PledgeOf(1, 3);
            && AdmissibleRun(PledgingRun(10, 4)[..3]) && w.db.receipts != [] && w.db.receipts[0].status == SPLIT
            && GateOf(w, a).Proceed?
            && Perform(w, a) == Served(w, Verdict.Refused(LedgerRefused(NotTransactable)))
  {
    hide RunActions, AdmissibleRun, TreeMass, Perform, Healthy, Stored;
    PledgingIsAdmissible(10, 4);
    ReachableIsHealthy(PledgingRun(10, 4)[..3]);
    var w, a := RunActions(EMPTY_WORLD, PledgingRun(10, 4)[..3]), PledgeOf(1, 3);
    LeftOfTheStock(w, 10, 4);
    PledgeSucceedsIffActive(w, a);
  }

  /** Four of ten under lien, and a pending request for `asked` of them. */
  function RequestingRun(asked: int): seq<Action> {
    PledgingRun(10, 4) + [Request1(asked)]
  }

  lemma RequestingIsAdmissible(asked: int)
    requires 0 < asked <= 4
    ensures AdmissibleRun(RequestingRun(asked))
    ensures var w := RunActions(EMPTY_WORLD, RequestingRun(asked));
            && |w.requests| == 1 && w.requests[0].lines == [Line(0, 1, asked)] && GateOf(w, APPROVE).Proceed?
            && w.liens.Keys == {0} && w.liens[0].remaining == 4
  {
    hide RunActions, StoredRunActions, AdmissibleRun, Admissible, GateOf, StoredPerform, Perform, ReadyToApprove;
    var run := PledgingRun(10, 4);
    PledgingIsAdmissible(10, 4);
    OneMoreAction(run, Request1(asked));
    ServiceIsAdmissible(RunActions(EMPTY_WORLD, run), Request1(asked));
    RunsAreExact(run);
    RunsAreExact(RequestingRun(asked));
    OneMore(run, Request1(asked), 1);
    RequestIsPending(RunActions(EMPTY_WORLD, run), 10, 4, asked, 1);
  }

  /** Both ways a retry goes wrong are reached. Stopped after a line of one of four, it
      takes one more off the lien, which is left at two instead of three; stopped after a
      line of three of four, it is refused, and the request stays pending. */
  lemma StoppedApprovalsAreReached(asked: int)
    requires 0 < asked <= 4
    ensures var w := RunActions(EMPTY_WORLD, RequestingRun(asked));
            && AdmissibleRun(RequestingRun(asked)) && GateOf(w, APPROVE).Proceed?
            && |w.requests[0].lines| == 1 && w.requests[0].lines[0].lien in w.liens
            && var m := StoppedAt(w, 0, 1, false);
               if asked <= 2
               then Perform(m, APPROVE).verdict.Done? && 0 in Perform(m, APPROVE).world.liens
                    && Perform(m, APPROVE).world.liens[0].remaining == 4 - 2 * asked
               else Perform(m, APPROVE) == Served(m, Verdict.Refused(BadRequest))
  {
    hide RunActions, AdmissibleRun, GateOf, Perform, Healthy, StoppedAt;
    var w := RunActions(EMPTY_WORLD, RequestingRun(asked));
    RequestingIsAdmissible(asked);
    ReachableIsHealthy(RequestingRun(asked));
    RetryIsRefusedOrDeductsTwice(w, APPROVE, 1, false);
    assert w.requests[0].lines[0] == Line(0, 1, asked);
  }

  /** And so is a request that names one lien twice: it passes every check, and its
      approval is refused. */
  lemma RepeatedLinesAreReached()
    ensures var w := RunActions(EMPTY_WORLD, PledgingRun(10, 4));
            && AdmissibleRun(PledgingRun(10, 4)) && 0 in w.liens
            && TwiceAll(w, 0).inputs == [LineInput(0, 4), LineInput(0, 4)]
            && GateOf(w, TwiceAll(w, 0)).Proceed?
            && GateOf(Perform(w, TwiceAll(w, 0)).world, APPROVE).Proceed?
            && Perform(Perform(w, TwiceAll(w, 0)).world, APPROVE).verdict
               == Verdict.Refused(LedgerRefused(InvalidTransition))
  {
    hide RunActions, AdmissibleRun, GateOf, Perform, Healthy;
    var w := RunActions(EMPTY_WORLD, PledgingRun(10, 4));
    PledgingIsAdmissible(10, 4);
    ReachableIsHealthy(PledgingRun(10, 4));
    RepeatedLinesOvercommit(w, 0);
    RepeatedLinesAreRefused(w, 0);
  }
}
