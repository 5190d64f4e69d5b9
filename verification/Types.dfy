/** The closed vocabularies of the inventory: statuses, event kinds, and the
    filter groups of the receipt table (src/inventory/inventory.types.ts). */
module InventoryTypes {

  datatype Option<+T> = None | Some(value: T)

  datatype ReceiptStatus =
    | PENDING_APPROVAL
    | ACTIVE
    | HELD_WITHDRAWAL | HELD_LOAN | HELD_TRADE | HELD_PLEDGE_PENDING | HELD_LIEN
    | WITHDRAWN | TRADED_OUT | SEIZED | EXPIRED | CANCELLED | SPLIT

  datatype ApprovalStatus = PENDING | APPROVED | REJECTED

  datatype TxnType = DEPOSIT | WITHDRAWAL | LOAN | TRADE | ADJUSTMENT | PLEDGE

  datatype EventKind =
    | Deposited | Approved | Rejected | HoldPlaced | HoldReleased | PledgeAccepted
    | Consumed | OwnershipTransferred | Seized | Expired | Cancelled | LegacyReconciliation

  datatype ReceiptGroup = ActiveGroup | LienedGroup | CancelledGroup

  const HELD: set<ReceiptStatus> :=
    {HELD_WITHDRAWAL, HELD_LOAN, HELD_TRADE, HELD_PLEDGE_PENDING, HELD_LIEN}

  const CLOSED: set<ReceiptStatus> :=
    {WITHDRAWN, TRADED_OUT, SEIZED, EXPIRED, CANCELLED, SPLIT}

  /** A status that some `hold` may have been asked for. */
  type HeldStatus = s: ReceiptStatus | s in HELD witness HELD_LIEN

  function DeriveGroup(status: ReceiptStatus, approval: ApprovalStatus): ReceiptGroup {
    if status in CLOSED then CancelledGroup
    else if status == PENDING_APPROVAL || status in HELD || approval == PENDING then LienedGroup
    else ActiveGroup
  }

  function StatusesForGroup(group: ReceiptGroup): set<ReceiptStatus> {
    match group
    case CancelledGroup => CLOSED
    case LienedGroup => {PENDING_APPROVAL} + HELD
    case ActiveGroup => {ACTIVE}
  }

  /** The filter of a group finds a receipt exactly when the receipt is not an
      ACTIVE one still awaiting approval: that one derives to the liened group
      but carries a status no liened filter asks for. */
  lemma GroupFilterFindsReceipt(status: ReceiptStatus, approval: ApprovalStatus)
    ensures status in StatusesForGroup(DeriveGroup(status, approval))
       <==> !(status == ACTIVE && approval == PENDING)
    ensures forall g :: g != DeriveGroup(status, approval) && status in StatusesForGroup(g)
                     ==> status == ACTIVE && approval == PENDING && g == ActiveGroup
  {
    assert StatusesForGroup(LienedGroup) == {PENDING_APPROVAL} + HELD;
  }
}
