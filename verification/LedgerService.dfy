/** The ledger as the service writes it (src/inventory/inventory-ledger.service.ts): each
    primitive checks, inserts and overwrites rows step by step inside a transaction that
    is committed or thrown away, and is proved to do what its function in `Ledger` says. */
module LedgerService {
  import opened InventoryTypes
  import opened ReceiptNumbers
  import opened Ledger
  import ExactlyOnce
  import opened Tables

  /** The tables. */
  class PrismaService {
    var receipts: seq<Receipt>
    var events: seq<Event>
    var now: int
    var pledges: map<nat, Pledge>
    var liens: map<nat, Lien>
    var requests: seq<Request>
    var withdrawals: seq<Withdrawal>
    var loans: map<nat, Loan>
    var trades: map<nat, Trade>

    function Rows(): Db
      reads this`receipts, this`events
    {
      Db(receipts, events)
    }

    function Contents(): World
      reads this
    {
      World(Rows(), now, pledges, liens, requests, withdrawals, loans, trades)
    }

    constructor ()
      ensures Contents() == EMPTY_WORLD
    {
      receipts, events, now, pledges, liens, requests, withdrawals, loans, trades := [], [], 0, map[], map[], [], [],
        map[], map[];
    }

    /** `findUnique` on the idempotency key. */
    method FindByKey(key: Key) returns (found: Option<nat>)
      ensures found == FindEvent(events, key)
    {
      assert events[..|events|] == events;
      for e := |events| downto 0
        invariant FindEvent(events, key) == FindEvent(events[..e], key)
      {
        assert events[..e + 1][..e] == events[..e];
        if events[e].key == key {
          return Some(e);
        }
      }
      found := None;
    }
  }

  predicate NumberTaken(receipts: seq<Receipt>, number: string) {
    exists i :: 0 <= i < |receipts| && receipts[i].number == number
  }

  /** A transaction works on its own copy; what it throws away was never written. */
  class Transaction {
    var receipts: seq<Receipt>
    var events: seq<Event>

    function Rows(): Db
      reads this
    {
      Db(receipts, events)
    }

    constructor (prisma: PrismaService)
      ensures Rows() == prisma.Rows()
    {
      receipts, events := prisma.receipts, prisma.events;
    }

    method Commit(prisma: PrismaService)
      modifies prisma`receipts, prisma`events
      ensures prisma.Rows() == Rows()
    {
      prisma.receipts, prisma.events := receipts, events;
    }

    method LoadOrThrow(id: nat, tenant: string) returns (r: Result<Receipt>)
      ensures r == if Present(receipts, id, tenant) then Ok(receipts[id]) else Err(ReceiptNotFound)
    {
      r := if Present(receipts, id, tenant) then Ok(receipts[id]) else Err(ReceiptNotFound);
    }

    method CreateEvent(ev: Event) returns (r: Result<nat>)
      modifies this`events
      ensures r == if KeyUsed(old(events), ev.key) then Err(UniqueViolation) else Ok(|old(events)|)
      ensures events == if r.Ok? then old(events) + [ev] else old(events)
    {
      for e := 0 to |events|
        invariant events == old(events)
        invariant forall k :: 0 <= k < e ==> events[k].key != ev.key
      {
        if events[e].key == ev.key {
          return Err(UniqueViolation);
        }
      }
      r := Ok(|events|);
      events := events + [ev];
    }

    method CreateReceipt(row: Receipt) returns (r: Result<nat>)
      modifies this`receipts
      ensures r == if NumberTaken(old(receipts), row.number) then Err(UniqueViolation) else Ok(|old(receipts)|)
      ensures receipts == if r.Ok? then old(receipts) + [row] else old(receipts)
    {
      for i := 0 to |receipts|
        invariant receipts == old(receipts)
        invariant forall k :: 0 <= k < i ==> receipts[k].number != row.number
      {
        if receipts[i].number == row.number {
          return Err(UniqueViolation);
        }
      }
      r := Ok(|receipts|);
      receipts := receipts + [row];
    }

    method UpdateReceipt(id: nat, row: Receipt)
      requires id < |receipts|
      modifies this`receipts
      ensures receipts == old(receipts)[id := row]
    {
      receipts := receipts[id := row];
    }
  }

  /** What a transaction body leaves behind: the whole write of its primitive, or an error. */
  twostate predicate Wrote(tx: Transaction, call: Call, new reply: Result<Reply>)
    reads tx
  {
    var done := Transact(old(tx.Rows()), call);
    if done.Ok? then reply == Ok(FreshReply(old(tx.Rows()), call.op)) && tx.Rows() == done.value
      else reply == Err(done.error)
  }

  // ----- What a transaction with one change amounts to ----------------------

  lemma TransactFlips(db: Db, call: Call, ev: Event, at: nat, row: Receipt)
    requires Plan(db, call) == Ok(Writes([ev], Rewrite(at, row))) && at < |db.receipts|
    ensures Transact(db, call) == if KeyUsed(db.events, ev.key) then Err(UniqueViolation)
                                  else Ok(Db(db.receipts[at := row], db.events + [ev]))
  {
    hide Plan, KeyUsed;
    assert Writes([ev], Rewrite(at, row)).events[0] == ev;
  }

  lemma TransactRefuses(db: Db, call: Call)
    requires Plan(db, call).Err?
    ensures Transact(db, call) == Err(Plan(db, call).error)
  {
    hide Plan;
  }

  lemma TransactTransfers(db: Db, call: Call, first: Event, second: Event, at: nat, row: Receipt)
    requires Plan(db, call) == Ok(Writes([first, second], Rewrite(at, row))) && at < |db.receipts|
    ensures Transact(db, call) == if KeyUsed(db.events, first.key) || KeyUsed(db.events, second.key)
            then Err(UniqueViolation)
                                  else Ok(Db(db.receipts[at := row], db.events + [first, second]))
  {
    hide Plan, KeyUsed;
    var events := Writes([first, second], Rewrite(at, row)).events;
    assert events[0] == first && events[1] == second;
  }

  lemma StillUnused(events: seq<Event>, ev: Event, key: Key)
    requires ev.key != key
    ensures KeyUsed(events + [ev], key) <==> KeyUsed(events, key)
  {
    if KeyUsed(events, key) {
      var e :| 0 <= e < |events| && events[e].key == key;
      assert (events + [ev])[e].key == key;
    }
  }

  lemma TransactSplits(db: Db, call: Call, ev: Event, at: nat, kids: seq<Receipt>)
    requires Plan(db, call) == Ok(Writes([ev], Split(at, kids))) && at < |db.receipts|
    requires forall k :: 0 <= k < |kids| ==> !NumberTaken(db.receipts, kids[k].number)
    ensures Transact(db, call) == if KeyUsed(db.events, ev.key) then Err(UniqueViolation)
                                  else Ok(Db(db.receipts[at := Superseded(db.receipts[at])] + kids, db.events + [ev]))
  {
    hide Plan, KeyUsed;
    var w := Writes([ev], Split(at, kids));
    assert w.events[0] == ev;
    forall k, i | 0 <= k < |kids| && 0 <= i < |db.receipts|
      ensures kids[k].number != db.receipts[i].number
    {
      assert !NumberTaken(db.receipts, kids[k].number);
    }
  }

  /** The two numbers a split hands out are free, and stay so after the first is taken. */
  lemma SplitNumbersStayFree(receipts: seq<Receipt>, at: nat)
    requires at < |receipts|
    ensures var base, suffixes := BaseReceiptNumber(receipts[at].number), SplitSuffixes(receipts, at);
            && !NumberTaken(receipts, ChildNumber(base, suffixes.0))
            && !NumberTaken(receipts, ChildNumber(base, suffixes.1))
            && ChildNumber(base, suffixes.0) != ChildNumber(base, suffixes.1)
  {
    hide ChildNumber, BaseReceiptNumber, ExistingSuffixes, NextFree;
    SplitNumbersAreNew(Numbers(receipts), BaseReceiptNumber(receipts[at].number));
    forall i | 0 <= i < |receipts|
      ensures receipts[i].number in Numbers(receipts)
    {
      assert Numbers(receipts)[i] == receipts[i].number;
    }
  }

  lemma OneMoreTaken(receipts: seq<Receipt>, row: Receipt, number: string)
    requires !NumberTaken(receipts, number) && row.number != number
    ensures !NumberTaken(receipts + [row], number)
  {
  }

  lemma PartitionNumbersFree(receipts: seq<Receipt>, at: nat, primaryQty: int, status: ReceiptStatus,
                             approval: ApprovalStatus,
                             client: string, txnType: Option<TxnType>, txnId: Option<Ref>, e: nat)
    requires at < |receipts|
    ensures var kids := Ledger.Partition(receipts, at, primaryQty, status, approval, client, txnType, txnId, e);
            forall k :: 0 <= k < |kids| ==> !NumberTaken(receipts, kids[k].number)
  {
    hide SplitSuffixes, ChildNumber, BaseReceiptNumber, NumberTaken;
    SplitNumbersStayFree(receipts, at);
  }

  lemma TransactMints(db: Db, call: Call, ev: Event, row: Receipt)
    requires Plan(db, call) == Ok(Writes([ev], Mint(row)))
    ensures Transact(db, call) == if KeyUsed(db.events, ev.key) || NumberTaken(db.receipts, row.number)
            then Err(UniqueViolation)
                                  else Ok(Db(db.receipts + [row], db.events + [ev]))
  {
    hide Plan, KeyUsed;
    var w := Writes([ev], Mint(row));
    assert w.events[0] == ev && NewRows(w.change)[0] == row;
  }

  /** A committed transaction has put an event on file. */
  lemma CommitsAdvance(db: Db, call: Call)
    requires Transact(db, call).Ok?
    ensures Transact(db, call).value != db
  {
    PlanHasAnEvent(db, call);
    hide Plan, Collides;
    assert |Transact(db, call).value.events| > |db.events|;
  }

  lemma PlanHasAnEvent(db: Db, call: Call)
    requires Plan(db, call).Ok?
    ensures |Plan(db, call).value.events| > 0
  {
    hide SplitSuffixes, Child, KeyUsed;
  }

  // ----- The service -------------------------------------------------------

  class InventoryLedgerService {
    const prisma: PrismaService

    constructor (prisma: PrismaService)
      ensures this.prisma == prisma
    {
      this.prisma := prisma;
    }

    // ----- One event, one rewritten row

    method ApproveReceipt(tx: Transaction, tenant: string, key: Key, receipt: nat) returns (reply: Result<Reply>)
      modifies tx
      ensures Wrote(tx, Call(tenant, key, Op.ApproveReceipt(receipt)), reply)
    {
      hide KeyUsed, Transact;
      ghost var call := Call(tenant, key, Op.ApproveReceipt(receipt));
      ghost var db := tx.Rows();
      if Plan(db, call).Err? { TransactRefuses(db, call); }
      var r :- tx.LoadOrThrow(receipt, tenant);
      if r.status != PENDING_APPROVAL {
        return Err(InvalidTransition);
      }
      var ev := Event(tenant, r.root, receipt, EventKind.Approved, Some(DEPOSIT), None, r.quantity, key, None);
      TransactFlips(db, call, ev, receipt, r.(status := ACTIVE, approval := APPROVED));
      var e :- tx.CreateEvent(ev);
      tx.UpdateReceipt(receipt, r.(status := ACTIVE, approval := APPROVED));
      reply := Ok(Reply.Node(receipt));
    }

    method RejectReceipt(tx: Transaction, tenant: string, key: Key, receipt: nat) returns (reply: Result<Reply>)
      modifies tx
      ensures Wrote(tx, Call(tenant, key, Op.RejectReceipt(receipt)), reply)
    {
      hide KeyUsed, Transact;
      ghost var call := Call(tenant, key, Op.RejectReceipt(receipt));
      ghost var db := tx.Rows();
      if Plan(db, call).Err? { TransactRefuses(db, call); }
      var r :- tx.LoadOrThrow(receipt, tenant);
      if r.status != PENDING_APPROVAL {
        return Err(InvalidTransition);
      }
      var ev := Event(tenant, r.root, receipt, EventKind.Rejected, Some(DEPOSIT), None, r.quantity, key, None);
      TransactFlips(db, call, ev, receipt, r.(status := CANCELLED, approval := REJECTED));
      var e :- tx.CreateEvent(ev);
      tx.UpdateReceipt(receipt, r.(status := CANCELLED, approval := REJECTED));
      reply := Ok(Reply.Node(receipt));
    }

    method ApproveHold(tx: Transaction, tenant: string, key: Key, receipt: nat) returns (reply: Result<Reply>)
      modifies tx
      ensures Wrote(tx, Call(tenant, key, Op.ApproveHold(receipt)), reply)
    {
      hide KeyUsed, Transact;
      ghost var call := Call(tenant, key, Op.ApproveHold(receipt));
      ghost var db := tx.Rows();
      if Plan(db, call).Err? { TransactRefuses(db, call); }
      var r :- tx.LoadOrThrow(receipt, tenant);
      if r.status !in HELD {
        return Err(InvalidTransition);
      }
      if r.approval != PENDING {
        return Err(InvalidTransition);
      }
      var ev := Event(tenant, r.root, receipt, EventKind.Approved, r.txnType, r.txnId, r.quantity, key, None);
      TransactFlips(db, call, ev, receipt, r.(approval := APPROVED));
      var e :- tx.CreateEvent(ev);
      tx.UpdateReceipt(receipt, r.(approval := APPROVED));
      reply := Ok(Reply.Node(receipt));
    }

    method Release(tx: Transaction, tenant: string, key: Key, receipt: nat) returns (reply: Result<Reply>)
      modifies tx
      ensures Wrote(tx, Call(tenant, key, Op.Release(receipt)), reply)
    {
      hide KeyUsed, Transact;
      ghost var call := Call(tenant, key, Op.Release(receipt));
      ghost var db := tx.Rows();
      if Plan(db, call).Err? { TransactRefuses(db, call); }
      var r :- tx.LoadOrThrow(receipt, tenant);
      if r.status !in HELD {
        return Err(InvalidTransition);
      }
      var ev := Event(tenant, r.root, receipt, HoldReleased, r.txnType, r.txnId, r.quantity, key, r.sourceEvent);
      TransactFlips(db, call, ev, receipt, r.(status := ACTIVE, approval := APPROVED));
      var e :- tx.CreateEvent(ev);
      tx.UpdateReceipt(receipt, r.(status := ACTIVE, approval := APPROVED));
      reply := Ok(Reply.Node(receipt));
    }

    method Consume(tx: Transaction, tenant: string, key: Key, receipt: nat) returns (reply: Result<Reply>)
      modifies tx
      ensures Wrote(tx, Call(tenant, key, Op.Consume(receipt)), reply)
    {
      hide KeyUsed, Transact;
      ghost var call := Call(tenant, key, Op.Consume(receipt));
      ghost var db := tx.Rows();
      if Plan(db, call).Err? { TransactRefuses(db, call); }
      var r :- tx.LoadOrThrow(receipt, tenant);
      if r.status !in HELD {
        return Err(InvalidTransition);
      }
      var ev := Event(tenant, r.root, receipt, Consumed, r.txnType, r.txnId, r.quantity, key, None);
      TransactFlips(db, call, ev, receipt, r.(status := WITHDRAWN));
      var e :- tx.CreateEvent(ev);
      tx.UpdateReceipt(receipt, r.(status := WITHDRAWN));
      reply := Ok(Reply.Node(receipt));
    }

    method TransitionPledgeToLien(tx: Transaction, tenant: string, key: Key, receipt: nat,
                                  txnId: Ref) returns (reply: Result<Reply>)
      modifies tx
      ensures Wrote(tx, Call(tenant, key, Op.TransitionPledgeToLien(receipt, txnId)), reply)
    {
      hide KeyUsed, Transact;
      ghost var call := Call(tenant, key, Op.TransitionPledgeToLien(receipt, txnId));
      ghost var db := tx.Rows();
      if Plan(db, call).Err? { TransactRefuses(db, call); }
      var r :- tx.LoadOrThrow(receipt, tenant);
      if r.status != HELD_PLEDGE_PENDING {
        return Err(InvalidTransition);
      }
      var ev := Event(tenant, r.root, receipt, PledgeAccepted, Some(PLEDGE), Some(txnId), r.quantity, key, None);
      TransactFlips(db, call, ev, receipt, r.(status := HELD_LIEN));
      var e :- tx.CreateEvent(ev);
      tx.UpdateReceipt(receipt, r.(status := HELD_LIEN));
      reply := Ok(Reply.Node(receipt));
    }

    method TransferOwnership(tx: Transaction, tenant: string, key: Key, receipt: nat, client: string,
                             txnType: TxnType, txnId: Ref) returns (reply: Result<Reply>)
      modifies tx
      ensures Wrote(tx, Call(tenant, key, Op.TransferOwnership(receipt, client, txnType, txnId)), reply)
    {
      hide KeyUsed, Transact;
      ghost var call := Call(tenant, key, Op.TransferOwnership(receipt, client, txnType, txnId));
      ghost var db := tx.Rows();
      if Plan(db, call).Err? { TransactRefuses(db, call); }
      var r :- tx.LoadOrThrow(receipt, tenant);
      var ev := Event(tenant, r.root, receipt, OwnershipTransferred, Some(txnType), Some(txnId), r.quantity, key, None);
      TransactFlips(db, call, ev, receipt, r.(client := client));
      var e :- tx.CreateEvent(ev);
      tx.UpdateReceipt(receipt, r.(client := client));
      reply := Ok(Reply.Node(receipt));
    }

    method Expire(tx: Transaction, tenant: string, key: Key, receipt: nat) returns (reply: Result<Reply>)
      modifies tx
      ensures Wrote(tx, Call(tenant, key, Op.Expire(receipt)), reply)
    {
      hide KeyUsed, Transact;
      ghost var call := Call(tenant, key, Op.Expire(receipt));
      ghost var db := tx.Rows();
      if Plan(db, call).Err? { TransactRefuses(db, call); }
      var r :- tx.LoadOrThrow(receipt, tenant);
      if r.status != ACTIVE {
        return Err(InvalidTransition);
      }
      var ev := Event(tenant, r.root, receipt, EventKind.Expired, None, None, r.quantity, key, None);
      TransactFlips(db, call, ev, receipt, r.(status := ReceiptStatus.EXPIRED));
      var e :- tx.CreateEvent(ev);
      tx.UpdateReceipt(receipt, r.(status := ReceiptStatus.EXPIRED));
      reply := Ok(Reply.Node(receipt));
    }

    // ----- Two events, one rewritten row

    method TransferAndRelease(tx: Transaction, tenant: string, key: Key, receipt: nat, client: string,
                              txnType: TxnType, txnId: Ref)
      returns (reply: Result<Reply>)
      modifies tx
      ensures Wrote(tx, Call(tenant, key, Op.TransferAndRelease(receipt, client, txnType, txnId)), reply)
    {
      hide KeyUsed, Transact, WithRelease;
      ghost var call := Call(tenant, key, Op.TransferAndRelease(receipt, client, txnType, txnId));
      ghost var db := tx.Rows();
      if Plan(db, call).Err? { TransactRefuses(db, call); }
      var r :- tx.LoadOrThrow(receipt, tenant);
      if r.status !in HELD {
        return Err(InvalidTransition);
      }
      var row := r.(client := client, status := ACTIVE, approval := APPROVED);
      var first := Event(tenant, r.root, receipt, OwnershipTransferred, Some(txnType), Some(txnId), r.quantity, key,
                         None);
      var second := Event(tenant, r.root, receipt, HoldReleased, Some(txnType), Some(txnId), r.quantity,
                          WithRelease(key), r.sourceEvent);
      TransactTransfers(db, call, first, second, receipt, row);
      WithReleaseDiffers(key);
      StillUnused(db.events, first, second.key);
      var e :- tx.CreateEvent(first);
      var f :- tx.CreateEvent(second);
      tx.UpdateReceipt(receipt, row);
      assert db.events + [first] + [second] == db.events + [first, second];
      reply := Ok(Reply.Node(receipt));
    }

    // ----- Splitting

    /** Inserts a child under the next free number after the ones handed out already. */
    method CreateChild(tx: Transaction, base: string, taken: seq<string>, child: Receipt) returns (id: Result<nat>,
                       suffix: string)
      requires forall s :: s in taken ==> IsSuffix(s)
      requires !NumberTaken(tx.receipts, ChildNumber(base, NextFree(taken)))
      modifies tx`receipts
      ensures suffix == NextFree(taken) && id == Ok(|old(tx.receipts)|)
      ensures tx.receipts == old(tx.receipts) + [child.(number := ChildNumber(base, suffix))]
    {
      suffix := NextSuffix(taken);
      id := tx.CreateReceipt(child.(number := ChildNumber(base, suffix)));
    }

    /** `partition`: splits a locked source into a primary child and, if anything is left,
        an ACTIVE remainder. */
    method Partition(tx: Transaction, at: nat, source: Receipt, primaryQty: int, status: ReceiptStatus,
                     approval: ApprovalStatus,
                     client: string, txnType: Option<TxnType>, txnId: Option<Ref>, e: nat)
      returns (primary: nat, remainder: Option<nat>)
      requires at < |tx.receipts| && tx.receipts[at] == source
      modifies tx`receipts
      ensures var receipts := old(tx.receipts);
              && tx.receipts == receipts[at := Superseded(source)]
                                + Ledger.Partition(receipts, at, primaryQty, status, approval, client, txnType, txnId,
                                                   e)
              && primary == |receipts|
              && remainder == if source.quantity - primaryQty > 0 then Some(|receipts| + 1) else None
    {
      hide NextFree, ChildNumber, BaseReceiptNumber, ExistingSuffixes, NumberTaken;
      ghost var receipts := tx.receipts;
      SplitNumbersStayFree(receipts, at);
      var base := BaseReceiptNumber(source.number);
      var taken := ExistingSuffixes(Numbers(tx.receipts), base);
      var kid := Child(source, at, "", primaryQty, status, approval, client, txnType, txnId, e);
      var id, primarySuffix := CreateChild(tx, base, taken, kid);
      primary, remainder := id.value, None;
      ghost var first := tx.receipts[primary];
      var remQty := source.quantity - primaryQty;
      if remQty > 0 {
        OneMoreTaken(receipts, first, ChildNumber(base, NextFree(taken + [primarySuffix])));
        var rest := Child(source, at, "", remQty, ACTIVE, APPROVED, source.client, None, None, e);
        var restId, restSuffix := CreateChild(tx, base, taken + [primarySuffix], rest);
        remainder := Some(restId.value);
      }
      tx.UpdateReceipt(at, Superseded(source));
    }

    method Hold(tx: Transaction, tenant: string, key: Key, receipt: nat, quantity: int, heldStatus: HeldStatus,
                txnType: TxnType, txnId: Ref)
      returns (reply: Result<Reply>)
      modifies tx
      ensures Wrote(tx, Call(tenant, key, Op.Hold(receipt, quantity, heldStatus, txnType, txnId)), reply)
    {
      hide KeyUsed, Transact, Ledger.Partition, NumberTaken;
      ghost var call := Call(tenant, key, Op.Hold(receipt, quantity, heldStatus, txnType, txnId));
      ghost var db := tx.Rows();
      if Plan(db, call).Err? { TransactRefuses(db, call); }
      var src :- tx.LoadOrThrow(receipt, tenant);
      if src.status != ACTIVE || src.approval != APPROVED {
        return Err(NotTransactable);
      }
      if src.isParent {
        return Err(NotTransactable);
      }
      if quantity <= 0 {
        return Err(InsufficientQuantity);
      }
      if quantity > src.quantity {
        return Err(InsufficientQuantity);
      }
      var ev := Event(tenant, src.root, receipt, HoldPlaced, Some(txnType), Some(txnId), quantity, key, None);
      ghost var kids := Ledger.Partition(db.receipts, receipt, quantity, heldStatus, PENDING, src.client,
                                         Some(txnType), Some(txnId), |db.events|);
      PartitionNumbersFree(db.receipts, receipt, quantity, heldStatus, PENDING, src.client, Some(txnType), Some(txnId),
                           |db.events|);
      TransactSplits(db, call, ev, receipt, kids);
      var e :- tx.CreateEvent(ev);
      var held, remainder := Partition(tx, receipt, src, quantity, heldStatus, PENDING, src.client, Some(txnType),
                                       Some(txnId), e);
      reply := Ok(HoldReply(receipt, Some(held), remainder));
    }

    /** `releasePartial` splits by hand: the remainder stays held. */
    method ReleasePartial(tx: Transaction, tenant: string, key: Key, receipt: nat, quantity: int,
                          txnId: Ref) returns (reply: Result<Reply>)
      modifies tx
      ensures Wrote(tx, Call(tenant, key, Op.ReleasePartial(receipt, quantity, txnId)), reply)
    {
      hide KeyUsed, Transact, NextFree, ChildNumber, BaseReceiptNumber, ExistingSuffixes, NumberTaken;
      ghost var call := Call(tenant, key, Op.ReleasePartial(receipt, quantity, txnId));
      ghost var db := tx.Rows();
      if Plan(db, call).Err? { TransactRefuses(db, call); }
      var src :- tx.LoadOrThrow(receipt, tenant);
      if src.status != HELD_LIEN {
        return Err(InvalidTransition);
      }
      if quantity <= 0 {
        return Err(InsufficientQuantity);
      }
      if quantity >= src.quantity {
        return Err(InsufficientQuantity);
      }
      var ev := Event(tenant, src.root, receipt, HoldReleased, Some(PLEDGE), Some(txnId), quantity, key, None);
      SplitNumbersStayFree(db.receipts, receipt);
      ghost var suffixes := SplitSuffixes(db.receipts, receipt);
      ghost var kids := [Child(src, receipt, suffixes.0, quantity, ACTIVE, APPROVED, src.client, None, None,
                               |db.events|),
                         Child(src, receipt, suffixes.1, src.quantity - quantity, HELD_LIEN, src.approval, src.client,
                               src.txnType,
                               src.txnId, |db.events|)];
      TransactSplits(db, call, ev, receipt, kids);
      var e :- tx.CreateEvent(ev);
      var base := BaseReceiptNumber(src.number);
      var taken := ExistingSuffixes(Numbers(tx.receipts), base);
      var released, primarySuffix := CreateChild(tx, base, taken,
                                                 Child(src, receipt, "", quantity, ACTIVE, APPROVED, src.client, None,
                                                       None, e));
      OneMoreTaken(db.receipts, kids[0], ChildNumber(base, NextFree(taken + [primarySuffix])));
      var remainingHeld, restSuffix := CreateChild(tx, base, taken + [primarySuffix],
        Child(src, receipt, "", src.quantity - quantity, HELD_LIEN, src.approval, src.client, src.txnType, src.txnId,
              e));
      tx.UpdateReceipt(receipt, Superseded(src));
      assert tx.receipts == db.receipts[receipt := Superseded(src)] + kids;
      reply := Ok(PartialReply(Some(released.value), Some(remainingHeld.value)));
    }

    method Seize(tx: Transaction, tenant: string, key: Key, receipt: nat, client: string,
                 partial: Option<int>) returns (reply: Result<Reply>)
      modifies tx
      ensures Wrote(tx, Call(tenant, key, Op.Seize(receipt, client, partial)), reply)
    {
      hide KeyUsed, Transact, Ledger.Partition, NumberTaken;
      ghost var call := Call(tenant, key, Op.Seize(receipt, client, partial));
      ghost var db := tx.Rows();
      if Plan(db, call).Err? { TransactRefuses(db, call); }
      var r :- tx.LoadOrThrow(receipt, tenant);
      if r.status != HELD_LOAN {
        return Err(InvalidTransition);
      }
      var ev := Event(tenant, r.root, receipt, Seized, Some(LOAN), r.txnId, r.quantity, key, None);
      if partial.None? {
        TransactFlips(db, call, ev, receipt, r.(status := ReceiptStatus.SEIZED, client := client));
      }
      var e :- tx.CreateEvent(ev);
      if partial.Some? {
        var pq := partial.value;
        if pq <= 0 || pq >= r.quantity {
          return Err(InsufficientQuantity);
        }
        ghost var kids := Ledger.Partition(db.receipts, receipt, pq, ReceiptStatus.SEIZED, APPROVED, client,
                                           Some(LOAN), r.txnId, |db.events|);
        PartitionNumbersFree(db.receipts, receipt, pq, ReceiptStatus.SEIZED, APPROVED, client, Some(LOAN), r.txnId,
                             |db.events|);
        TransactSplits(db, call, ev, receipt, kids);
        var seized, remainder := Partition(tx, receipt, r, pq, ReceiptStatus.SEIZED, APPROVED, client, Some(LOAN),
                                           r.txnId, e);
        return Ok(SeizeReply(Some(seized), remainder));
      }
      tx.UpdateReceipt(receipt, r.(status := ReceiptStatus.SEIZED, client := client));
      reply := Ok(SeizeReply(Some(receipt), None));
    }

    // ----- Minting

    /** The root is inserted before its event, and linked to it afterwards. */
    method Deposit(tx: Transaction, tenant: string, key: Key, client: string, commodity: string, warehouse: string,
                   quantity: int,
                   number: string)
      returns (reply: Result<Reply>)
      modifies tx
      ensures Wrote(tx, Call(tenant, key, Op.Deposit(client, commodity, warehouse, quantity, number)), reply)
    {
      hide KeyUsed, Transact, NumberTaken;
      ghost var call := Call(tenant, key, Op.Deposit(client, commodity, warehouse, quantity, number));
      ghost var db := tx.Rows();
      var id := |tx.receipts|;
      var root := Receipt(number, PENDING_APPROVAL, PENDING, tenant, commodity, warehouse, quantity, client, None, id,
                          false,
                          Some(DEPOSIT), None, None);
      var ev := Event(tenant, id, id, Deposited, Some(DEPOSIT), None, quantity, key, None);
      TransactMints(db, call, ev, root.(sourceEvent := Some(|db.events|)));
      id :- tx.CreateReceipt(root);
      var e :- tx.CreateEvent(ev);
      tx.UpdateReceipt(id, root.(sourceEvent := Some(e)));
      assert tx.receipts == db.receipts + [root.(sourceEvent := Some(e))];
      reply := Ok(Reply.Node(id));
    }

    // ----- Idempotency

    /** The transaction body of a call. */
    method Work(tx: Transaction, call: Call) returns (reply: Result<Reply>)
      modifies tx
      ensures Wrote(tx, call, reply)
    {
      hide Transact, FreshReply;
      match call.op
      case Deposit(client, commodity, warehouse, quantity, number) =>
        reply := Deposit(tx, call.tenant, call.key, client, commodity, warehouse, quantity, number);
      case ApproveReceipt(receipt) => reply := ApproveReceipt(tx, call.tenant, call.key, receipt);
      case RejectReceipt(receipt) => reply := RejectReceipt(tx, call.tenant, call.key, receipt);
      case Hold(receipt, quantity, heldStatus, txnType, txnId) =>
        reply := Hold(tx, call.tenant, call.key, receipt, quantity, heldStatus, txnType, txnId);
      case ApproveHold(receipt) => reply := ApproveHold(tx, call.tenant, call.key, receipt);
      case Release(receipt) => reply := Release(tx, call.tenant, call.key, receipt);
      case ReleasePartial(receipt, quantity, txnId) =>
        reply := ReleasePartial(tx, call.tenant, call.key, receipt, quantity, txnId);
      case TransitionPledgeToLien(receipt, txnId) =>
        reply := TransitionPledgeToLien(tx, call.tenant, call.key, receipt, txnId);
      case Consume(receipt) => reply := Consume(tx, call.tenant, call.key, receipt);
      case Seize(receipt, client, partial) => reply := Seize(tx, call.tenant, call.key, receipt, client, partial);
      case TransferOwnership(receipt, client, txnType, txnId) =>
        reply := TransferOwnership(tx, call.tenant, call.key, receipt, client, txnType, txnId);
      case TransferAndRelease(receipt, client, txnType, txnId) =>
        reply := TransferAndRelease(tx, call.tenant, call.key, receipt, client, txnType, txnId);
      case Expire(receipt) => reply := Expire(tx, call.tenant, call.key, receipt);
    }

    /** `runIdempotent` around one transaction: a key on file is answered from its event.
        Run alone, a violated unique constraint finds no winner to answer from and is
        thrown on; `ExactlyOnce` has the callers interleaved. A caller's own work inside
        the transaction commits with it, so exactly when `ran`. */
    method RunIdempotent(call: Call) returns (reply: Result<Reply>, ran: bool)
      modifies prisma`receipts, prisma`events
      ensures Outcome(prisma.Rows(), reply) == Invoke(old(prisma.Rows()), call)
      ensures ran <==> prisma.Rows() != old(prisma.Rows())
    {
      hide Transact, FreshReply, Reconstruct, KeyUsed;
      ran := false;
      if call.op.Deposit? && call.op.quantity <= 0 {
        return Err(InsufficientQuantity), false;
      }
      var prior := prisma.FindByKey(call.key);
      if prior.Some? {
        return Reconstruct(prisma.Rows(), prior.value, call.op), false;
      }
      var tx := new Transaction(prisma);
      reply := Work(tx, call);
      if reply.Ok? {
        CommitsAdvance(prisma.Rows(), call);
        tx.Commit(prisma);
        ran := true;
      }
    }
  }
}
