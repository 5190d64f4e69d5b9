/** The receipt-tree ledger as a function on its two tables
    (src/inventory/inventory-ledger.service.ts).

    A row is named by the position at which it was inserted. An idempotency key is
    given split at its colons, so `WITHDRAWAL:<id>:hold` is the three parts
    `WithdrawalWord`, `Uuid(id)`, `HoldWord`. */
module Ledger {
  import opened InventoryTypes
  import opened ReceiptNumbers

  /** The words the services build keys from; any other text is `Other`. */
  datatype Word =
    | PledgeWord | CreateWord | CancelWord | RejectWord | ExpireWord | AcceptWord
    | LienWord | ForceReleaseWord | ReleaseWord | FullWord | PartialWord
    | WithdrawalWord | LoanWord | TradeWord | HoldWord | ApproveHoldWord | ConsumeWord
    | RepayReleaseWord | TransferWord | CancelReleaseWord
    | ReceiptWord | ApproveWord | ManagerDepositWord
    | Other(text: string)

  datatype Ref = Text(word: Word) | Uuid(id: nat)

  datatype Key = End | Part(head: Ref, rest: Key)

  /** The key with `:release` appended. */
  function WithRelease(key: Key): Key {
    match key
    case End => Part(Text(ReleaseWord), End)
    case Part(head, rest) => Part(head, WithRelease(rest))
  }

  lemma WithReleaseDiffers(key: Key)
    ensures WithRelease(key) != key
  {
  }

  datatype Receipt = Receipt(
    number: string,
    status: ReceiptStatus,
    approval: ApprovalStatus,
    tenant: string,
    commodity: string,
    warehouse: string,
    quantity: int,
    client: string,
    parent: Option<nat>,
    root: nat,
    isParent: bool,
    txnType: Option<TxnType>,
    txnId: Option<Ref>,
    sourceEvent: Option<nat>)

  datatype Event = Event(
    tenant: string,
    root: nat,
    from: nat,
    kind: EventKind,
    txnType: Option<TxnType>,
    txnId: Option<Ref>,
    quantity: int,
    key: Key,
    reversalOf: Option<nat>)

  datatype Db = Db(receipts: seq<Receipt>, events: seq<Event>)

  const EMPTY_DB := Db([], [])

  datatype Error =
    | ReceiptNotFound
    | NotTransactable
    | InvalidTransition
    | InsufficientQuantity
    | UniqueViolation

  datatype Result<+T> = Ok(value: T) | Err(error: Error) {
    predicate IsFailure() {
      Err?
    }

    function PropagateFailure<U>(): Result<U>
      requires Err?
    {
      Err(error)
    }

    function Extract(): T
      requires Ok?
    {
      value
    }
  }

  /** One ledger primitive with its arguments. */
  datatype Op =
    | Deposit(client: string, commodity: string, warehouse: string, quantity: int, number: string)
    | ApproveReceipt(receipt: nat)
    | RejectReceipt(receipt: nat)
    | Hold(receipt: nat, quantity: int, heldStatus: HeldStatus, txnType: TxnType, txnId: Ref)
    | ApproveHold(receipt: nat)
    | Release(receipt: nat)
    | ReleasePartial(receipt: nat, quantity: int, txnId: Ref)
    | TransitionPledgeToLien(receipt: nat, txnId: Ref)
    | Consume(receipt: nat)
    | Seize(receipt: nat, client: string, partial: Option<int>)
    | TransferOwnership(receipt: nat, client: string, txnType: TxnType, txnId: Ref)
    | TransferAndRelease(receipt: nat, client: string, txnType: TxnType, txnId: Ref)
    | Expire(receipt: nat)

  datatype Call = Call(tenant: string, key: Key, op: Op)

  /** What a primitive writes: its events, and one change to the receipt table. */
  datatype Change =
    | Mint(row: Receipt)
    | Rewrite(at: nat, row: Receipt)
    | Split(at: nat, kids: seq<Receipt>)

  datatype Writes = Writes(events: seq<Event>, change: Change)

  /** The rows a caller gets back. */
  datatype Reply =
    | Node(id: nat)
    | HoldReply(source: nat, held: Option<nat>, remainder: Option<nat>)
    | PartialReply(released: Option<nat>, remainingHeld: Option<nat>)
    | SeizeReply(seized: Option<nat>, remainder: Option<nat>)

  // ----- Reading -----------------------------------------------------------

  predicate Present(receipts: seq<Receipt>, id: nat, tenant: string) {
    id < |receipts| && receipts[id].tenant == tenant
  }

  function Numbers(receipts: seq<Receipt>): (numbers: seq<string>)
    ensures |numbers| == |receipts|
    ensures forall i :: 0 <= i < |receipts| ==> numbers[i] == receipts[i].number
  {
    seq(|receipts|, i requires 0 <= i < |receipts| => receipts[i].number)
  }

  /** The event on file under a key. */
  function FindEvent(events: seq<Event>, key: Key): (found: Option<nat>)
    ensures found.Some? ==> found.value < |events| && events[found.value].key == key
    ensures found.None? ==> forall e :: 0 <= e < |events| ==> events[e].key != key
  {
    if events == [] then None
    else
      var n := |events| - 1;
      if events[n].key == key then Some(n) else FindEvent(events[..n], key)
  }

  predicate KeyUsed(events: seq<Event>, key: Key) {
    exists e :: 0 <= e < |events| && events[e].key == key
  }

  /** First receipt minted by event `e` whose status is wanted. */
  function FindKid(receipts: seq<Receipt>, e: nat, wanted: set<ReceiptStatus>): (found: Option<nat>)
    ensures found.Some? ==> found.value < |receipts|
    ensures found.Some? ==> receipts[found.value].sourceEvent == Some(e) && receipts[found.value].status in wanted
    ensures forall j: nat :: j < (if found.Some? then found.value else |receipts|) && receipts[j].sourceEvent == Some(e)
                         ==> receipts[j].status !in wanted
  {
    if receipts == [] then None
    else
      var n := |receipts| - 1;
      var earlier := FindKid(receipts[..n], e, wanted);
      if earlier.Some? then earlier
      else if receipts[n].sourceEvent == Some(e) && receipts[n].status in wanted then Some(n)
      else None
  }

  predicate HasKids(receipts: seq<Receipt>, e: nat) {
    exists j :: 0 <= j < |receipts| && receipts[j].sourceEvent == Some(e)
  }

  // ----- What each primitive plans to write --------------------------------

  /** A child of `src`, which sits at position `at`; `src`'s lineage data is copied. */
  function Child(src: Receipt, at: nat, suffix: string, quantity: int, status: ReceiptStatus,
                 approval: ApprovalStatus, client: string, txnType: Option<TxnType>,
                 txnId: Option<Ref>, e: nat): Receipt
  {
    Receipt(ChildNumber(BaseReceiptNumber(src.number), suffix), status, approval, src.tenant,
            src.commodity, src.warehouse, quantity, client, Some(at), src.root, false,
            txnType, txnId, Some(e))
  }

  /** The suffixes a two-way split of row `at` hands out. */
  function SplitSuffixes(receipts: seq<Receipt>, at: nat): (pair: (string, string))
    requires at < |receipts|
    ensures IsSuffix(pair.0) && IsSuffix(pair.1)
  {
    var taken := ExistingSuffixes(Numbers(receipts), BaseReceiptNumber(receipts[at].number));
    var first := NextFree(taken);
    (first, NextFree(taken + [first]))
  }

  /** `partition`: the primary child, and an ACTIVE remainder if anything is left. */
  function Partition(receipts: seq<Receipt>, at: nat, primaryQty: int, status: ReceiptStatus,
                     approval: ApprovalStatus, client: string, txnType: Option<TxnType>,
                     txnId: Option<Ref>, e: nat): seq<Receipt>
    requires at < |receipts|
  {
    var src := receipts[at];
    var (first, second) := SplitSuffixes(receipts, at);
    [Child(src, at, first, primaryQty, status, approval, client, txnType, txnId, e)]
    + (if src.quantity - primaryQty > 0
       then [Child(src, at, second, src.quantity - primaryQty, ACTIVE, APPROVED, src.client, None, None, e)]
       else [])
  }

  /** An event about row `at`, carrying its tenant and root. */
  function About(receipts: seq<Receipt>, at: nat, kind: EventKind, quantity: int, txnType: Option<TxnType>,
                 txnId: Option<Ref>, key: Key, reversalOf: Option<nat>): Event
    requires at < |receipts|
  {
    Event(receipts[at].tenant, receipts[at].root, at, kind, txnType, txnId, quantity, key, reversalOf)
  }

  /** One event and one rewritten row. */
  function Flip(receipts: seq<Receipt>, at: nat, kind: EventKind, txnType: Option<TxnType>, txnId: Option<Ref>,
                key: Key, reversalOf: Option<nat>, row: Receipt): Writes
    requires at < |receipts|
  {
    Writes([About(receipts, at, kind, receipts[at].quantity, txnType, txnId, key, reversalOf)], Rewrite(at, row))
  }

  /** The transaction body of a primitive, up to the unique constraints. */
  function Plan(db: Db, call: Call): Result<Writes> {
    var receipts, key, e := db.receipts, call.key, |db.events|;
    if call.op.Deposit? then
      var id := |receipts|;
      var row := Receipt(call.op.number, PENDING_APPROVAL, PENDING, call.tenant, call.op.commodity, call.op.warehouse,
                         call.op.quantity, call.op.client, None, id, false, Some(DEPOSIT), None, Some(e));
      Ok(Writes([Event(call.tenant, id, id, Deposited, Some(DEPOSIT), None, call.op.quantity, key, None)], Mint(row)))
    else
      var at := call.op.receipt;
      if !Present(receipts, at, call.tenant) then Err(ReceiptNotFound)
      else
        var r := receipts[at];
        match call.op
        case ApproveReceipt(_) =>
          if r.status != PENDING_APPROVAL then Err(InvalidTransition)
          else Ok(Flip(receipts, at, Approved, Some(DEPOSIT), None, key, None,
                       r.(status := ACTIVE, approval := APPROVED)))
        case RejectReceipt(_) =>
          if r.status != PENDING_APPROVAL then Err(InvalidTransition)
          else Ok(Flip(receipts, at, Rejected, Some(DEPOSIT), None, key, None,
                       r.(status := CANCELLED, approval := REJECTED)))
        case Hold(_, quantity, heldStatus, txnType, txnId) =>
          if r.status != ACTIVE || r.approval != APPROVED || r.isParent then Err(NotTransactable)
          else if quantity <= 0 || quantity > r.quantity then Err(InsufficientQuantity)
          else Ok(Writes([About(receipts, at, HoldPlaced, quantity, Some(txnType), Some(txnId), key, None)],
                         Split(at, Partition(receipts, at, quantity, heldStatus, PENDING, r.client,
                                             Some(txnType), Some(txnId), e))))
        case ApproveHold(_) =>
          if r.status !in HELD || r.approval != PENDING then Err(InvalidTransition)
          else Ok(Flip(receipts, at, Approved, r.txnType, r.txnId, key, None, r.(approval := APPROVED)))
        case Release(_) =>
          if r.status !in HELD then Err(InvalidTransition)
          else Ok(Flip(receipts, at, HoldReleased, r.txnType, r.txnId, key, r.sourceEvent,
                       r.(status := ACTIVE, approval := APPROVED)))
        case ReleasePartial(_, quantity, txnId) =>
          if r.status != HELD_LIEN then Err(InvalidTransition)
          else if quantity <= 0 || quantity >= r.quantity then Err(InsufficientQuantity)
          else
            var (first, second) := SplitSuffixes(receipts, at);
            Ok(Writes([About(receipts, at, HoldReleased, quantity, Some(PLEDGE), Some(txnId), key, None)],
                      Split(at, [Child(r, at, first, quantity, ACTIVE, APPROVED, r.client, None, None, e),
                                 Child(r, at, second, r.quantity - quantity, HELD_LIEN, r.approval, r.client,
                                       r.txnType, r.txnId, e)])))
        case TransitionPledgeToLien(_, txnId) =>
          if r.status != HELD_PLEDGE_PENDING then Err(InvalidTransition)
          else Ok(Flip(receipts, at, PledgeAccepted, Some(PLEDGE), Some(txnId), key, None, r.(status := HELD_LIEN)))
        case Consume(_) =>
          if r.status !in HELD then Err(InvalidTransition)
          else Ok(Flip(receipts, at, Consumed, r.txnType, r.txnId, key, None, r.(status := WITHDRAWN)))
        case Seize(_, client, partial) =>
          // the event row is inserted before the partial quantity is looked at
          if r.status != HELD_LOAN then Err(InvalidTransition)
          else if partial.Some? && KeyUsed(db.events, key) then Err(UniqueViolation)
          else if partial.Some? && (partial.value <= 0 || partial.value >= r.quantity) then Err(InsufficientQuantity)
          else if partial.Some? then
            Ok(Writes([About(receipts, at, Seized, r.quantity, Some(LOAN), r.txnId, key, None)],
                      Split(at, Partition(receipts, at, partial.value, SEIZED, APPROVED, client,
                                          Some(LOAN), r.txnId, e))))
          else Ok(Flip(receipts, at, Seized, Some(LOAN), r.txnId, key, None, r.(status := SEIZED, client := client)))
        case TransferOwnership(_, client, txnType, txnId) =>
          Ok(Flip(receipts, at, OwnershipTransferred, Some(txnType), Some(txnId), key, None, r.(client := client)))
        case TransferAndRelease(_, client, txnType, txnId) =>
          if r.status !in HELD then Err(InvalidTransition)
          else Ok(Writes([About(receipts, at, OwnershipTransferred, r.quantity, Some(txnType), Some(txnId), key, None),
                          About(receipts, at, HoldReleased, r.quantity, Some(txnType), Some(txnId),
                                WithRelease(key), r.sourceEvent)],
                         Rewrite(at, r.(client := client, status := ACTIVE, approval := APPROVED))))
        case Expire(_) =>
          if r.status != ACTIVE then Err(InvalidTransition)
          else Ok(Flip(receipts, at, EventKind.Expired, None, None, key, None, r.(status := ReceiptStatus.EXPIRED)))
  }

  // ----- Committing --------------------------------------------------------

  function Superseded(r: Receipt): Receipt {
    r.(status := SPLIT, isParent := true)
  }

  function Changed(receipts: seq<Receipt>, change: Change): seq<Receipt> {
    match change
    case Mint(row) => receipts + [row]
    case Rewrite(at, row) => if at < |receipts| then receipts[at := row] else receipts
    case Split(at, kids) => if at < |receipts| then receipts[at := Superseded(receipts[at])] + kids else receipts
  }

  function NewRows(change: Change): seq<Receipt> {
    match change
    case Mint(row) => [row]
    case Rewrite(_, _) => []
    case Split(_, kids) => kids
  }

  /** A unique index refuses a used key or a used receipt number. */
  predicate Collides(db: Db, w: Writes) {
    || (exists k :: 0 <= k < |w.events| && KeyUsed(db.events, w.events[k].key))
    || (exists k, i :: 0 <= k < |NewRows(w.change)| && 0 <= i < |db.receipts|
                    && NewRows(w.change)[k].number == db.receipts[i].number)
  }

  /** One serializable transaction: everything it writes, or nothing. */
  function Transact(db: Db, call: Call): Result<Db> {
    var plan := Plan(db, call);
    if plan.Err? then Err(plan.error)
    else if Collides(db, plan.value) then Err(UniqueViolation)
    else Ok(Db(Changed(db.receipts, plan.value.change), db.events + plan.value.events))
  }

  /** The reply of the call that committed. */
  function FreshReply(db: Db, op: Op): Reply {
    var n := |db.receipts|;
    match op
    case Deposit(_, _, _, _, _) => Node(n)
    case Hold(at, quantity, _, _, _) =>
      HoldReply(at, Some(n), if at < n && quantity < db.receipts[at].quantity then Some(n + 1) else None)
    case ReleasePartial(_, _, _) => PartialReply(Some(n), Some(n + 1))
    case Seize(at, _, partial) =>
      if partial.Some? then SeizeReply(Some(n), Some(n + 1)) else SeizeReply(Some(at), None)
    case _ => Node(op.receipt)
  }

  /** The reply rebuilt from the event a previous call left behind. */
  function Reconstruct(db: Db, e: nat, op: Op): Result<Reply>
    requires e < |db.events|
  {
    var ev := db.events[e];
    var known := Present(db.receipts, ev.from, ev.tenant);
    match op
    case Hold(_, _, _, _, _) =>
      if !known then Err(ReceiptNotFound)
      else Ok(HoldReply(ev.from, FindKid(db.receipts, e, HELD), FindKid(db.receipts, e, {ACTIVE})))
    case ReleasePartial(_, _, _) =>
      Ok(PartialReply(FindKid(db.receipts, e, {ACTIVE}), FindKid(db.receipts, e, {HELD_LIEN})))
    case Seize(_, _, _) =>
      if HasKids(db.receipts, e)
      then Ok(SeizeReply(FindKid(db.receipts, e, {ReceiptStatus.SEIZED}), FindKid(db.receipts, e, {ACTIVE})))
      else if known then Ok(SeizeReply(Some(ev.from), None)) else Err(ReceiptNotFound)
    case _ =>
      if known then Ok(Node(ev.from)) else Err(ReceiptNotFound)
  }

  datatype Outcome = Outcome(db: Db, reply: Result<Reply>)

  /** A whole call, run alone: `runIdempotent` around the transaction. */
  function Invoke(db: Db, call: Call): Outcome {
    if call.op.Deposit? && call.op.quantity <= 0 then Outcome(db, Err(InsufficientQuantity))
    else
      var prior := FindEvent(db.events, call.key);
      if prior.Some? then Outcome(db, Reconstruct(db, prior.value, call.op))
      else
        var done := Transact(db, call);
        if done.Ok? then Outcome(done.value, Ok(FreshReply(db, call.op))) else Outcome(db, Err(done.error))
  }

  /** The calls of `calls`, one after the other. */
  function Run(db: Db, calls: seq<Call>): Db {
    if calls == [] then db
    else Invoke(Run(db, calls[..|calls| - 1]), calls[|calls| - 1]).db
  }
}
