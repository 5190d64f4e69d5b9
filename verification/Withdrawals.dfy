/** Withdrawals and their cleanup (src/withdrawals/withdrawals.service.ts,
    src/withdrawals/withdrawals.cleanup.service.ts), each method against its action in
    `Services`. */
module Withdrawals {
  import opened InventoryTypes
  import opened Mass
  import opened Ledger
  import opened Tables
  import opened Services
  import opened LedgerService
  import opened Reachable

  class WithdrawalsService {
    const ledger: InventoryLedgerService

    constructor (ledger: InventoryLedgerService)
      ensures this.ledger == ledger
    {
      this.ledger := ledger;
    }

    /** `availableForWithdrawal`: an aggregate over the unpaid rows inside the window. */
    method Available(tenant: string, receipt: nat, quantity: int) returns (available: int)
      ensures available
           == AvailableForWithdrawal(ledger.prisma.withdrawals, ledger.prisma.now, tenant, receipt, quantity)
    {
      hide Sum;
      var ws, now := ledger.prisma.withdrawals, ledger.prisma.now;
      ghost var column, mine := WithdrawalQuantities(ws), ReservingIds(ws, now, tenant, receipt);
      var cutoff := now - PENDING_PAYMENT_TTL_MS;
      var reserved := 0;
      SumEmpty(column[..0], mine);
      for i := 0 to |ws|
        invariant reserved == Sum(column[..i], mine)
      {
        SumPush(column[..i], column[i], mine);
        assert column[..i + 1] == column[..i] + [column[i]];
        if ws[i].tenant == tenant && ws[i].receipt == receipt && ws[i].status.PendingPayment?
          && ws[i].createdAt > cutoff {
          reserved := reserved + ws[i].quantity;
        }
      }
      assert column[..|ws|] == column;
      available := quantity - reserved;
    }

    /** The same client's live reservation of a receipt, if there is one. */
    method HasReservation(client: string, tenant: string, receipt: nat) returns (found: bool)
      ensures found
             <==> exists i :: 0 <= i < |ledger.prisma.withdrawals| && ledger.prisma.withdrawals[i].client == client
                                     && Reserving(ledger.prisma.withdrawals[i], ledger.prisma.now, tenant, receipt)
    {
      var ws := ledger.prisma.withdrawals;
      for i := 0 to |ws|
        invariant forall k :: 0 <= k < i ==>
            !(ws[k].client == client && Reserving(ws[k], ledger.prisma.now, tenant, receipt))
      {
        if ws[i].client == client && Reserving(ws[i], ledger.prisma.now, tenant, receipt) {
          return true;
        }
      }
      found := false;
    }

    method CreateWithdrawal(tenant: string, client: string, receipt: nat, quantity: int, authorised: bool, priced: bool)
      returns (verdict: Verdict)
      modifies ledger.prisma
      ensures Served(ledger.prisma.Contents(), verdict)
           == Perform(old(ledger.prisma.Contents()),
                      Action.CreateWithdrawal(tenant, client, receipt, quantity, authorised, priced))
      ensures KeptHealthy(old(ledger.prisma.Contents()),
                          Action.CreateWithdrawal(tenant, client, receipt, quantity, authorised, priced),
                          ledger.prisma.Contents())
    {
      hide AvailableForWithdrawal, Reserving, KeptHealthy;
      ServiceKeepsHealthy(ledger.prisma.Contents(),
                          Action.CreateWithdrawal(tenant, client, receipt, quantity, authorised, priced));
      var prisma := ledger.prisma;
      if quantity <= 0 {
        return Refused(BadRequest);
      }
      if !authorised {
        return Refused(Forbidden);
      }
      if !Present(prisma.receipts, receipt, tenant) {
        return Refused(NotFound);
      }
      var r := prisma.receipts[receipt];
      if r.status != ACTIVE {
        return Refused(Conflict);
      }
      if r.approval != APPROVED {
        return Refused(Conflict);
      }
      if r.isParent {
        return Refused(Conflict);
      }
      var existing := HasReservation(client, tenant, receipt);
      if existing {
        return Refused(Conflict);
      }
      var available := Available(tenant, receipt, r.quantity);
      if quantity > available {
        return Refused(Conflict);
      }
      if !priced {
        return Refused(BadRequest);
      }
      prisma.withdrawals := prisma.withdrawals + [Withdrawal(tenant, client, receipt, quantity, PendingPayment,
                                                             prisma.now)];
      verdict := Done;
    }

    method ConfirmPayment(id: nat, tenant: string, permitted: bool) returns (verdict: Verdict)
      modifies ledger.prisma
      ensures Served(ledger.prisma.Contents(), verdict)
           == Perform(old(ledger.prisma.Contents()), Action.ConfirmPayment(id, tenant, permitted))
      ensures KeptHealthy(old(ledger.prisma.Contents()), Action.ConfirmPayment(id, tenant, permitted),
                          ledger.prisma.Contents())
    {
      hide Invoke, KeptHealthy;
      ServiceKeepsHealthy(ledger.prisma.Contents(), Action.ConfirmPayment(id, tenant, permitted));
      var prisma := ledger.prisma;
      if !(id < |prisma.withdrawals| && prisma.withdrawals[id].tenant == tenant) {
        return Refused(NotFound);
      }
      var wd := prisma.withdrawals[id];
      if !permitted {
        return Refused(Forbidden);
      }
      if !wd.status.PendingPayment? {
        return Refused(BadRequest);
      }
      var reply, _ := ledger.RunIdempotent(Call(tenant, WithdrawalKey(id, HoldWord),
                                                Hold(wd.receipt, wd.quantity, HELD_WITHDRAWAL, WITHDRAWAL, Uuid(id))));
      if reply.Err? {
        return Refused(LedgerRefused(reply.error));
      }
      var held := HeldOf(reply.value);
      if held.None? {
        return Refused(Conflict);
      }
      prisma.withdrawals := prisma.withdrawals[id := wd.(status := PaidPendingApproval, receipt := held.value)];
      verdict := Done;
    }

    method ApproveWithdrawal(id: nat, tenant: string) returns (verdict: Verdict)
      modifies ledger.prisma
      ensures Served(ledger.prisma.Contents(), verdict)
           == Perform(old(ledger.prisma.Contents()), Action.ApproveWithdrawal(id, tenant))
      ensures KeptHealthy(old(ledger.prisma.Contents()), Action.ApproveWithdrawal(id, tenant), ledger.prisma.Contents())
    {
      hide Invoke, KeptHealthy;
      ServiceKeepsHealthy(ledger.prisma.Contents(), Action.ApproveWithdrawal(id, tenant));
      var prisma := ledger.prisma;
      if !(id < |prisma.withdrawals| && prisma.withdrawals[id].tenant == tenant) {
        return Refused(NotFound);
      }
      var wd := prisma.withdrawals[id];
      if !wd.status.PaidPendingApproval? {
        return Refused(BadRequest);
      }
      var reply, _ := ledger.RunIdempotent(Call(tenant, WithdrawalKey(id, ApproveHoldWord), ApproveHold(wd.receipt)));
      if reply.Err? {
        return Refused(LedgerRefused(reply.error));
      }
      prisma.withdrawals := prisma.withdrawals[id := wd.(status := WithdrawalStatus.Approved)];
      verdict := Done;
    }

    /** Whether a hold must be released is read off the receipt, not off the row. */
    method RejectWithdrawal(id: nat, tenant: string) returns (verdict: Verdict)
      modifies ledger.prisma
      ensures Served(ledger.prisma.Contents(), verdict)
           == Perform(old(ledger.prisma.Contents()), Action.RejectWithdrawal(id, tenant))
      ensures KeptHealthy(old(ledger.prisma.Contents()), Action.RejectWithdrawal(id, tenant), ledger.prisma.Contents())
    {
      hide Invoke, KeptHealthy;
      ServiceKeepsHealthy(ledger.prisma.Contents(), Action.RejectWithdrawal(id, tenant));
      var prisma := ledger.prisma;
      ghost var w := prisma.Contents();
      if !(id < |prisma.withdrawals| && prisma.withdrawals[id].tenant == tenant) {
        return Refused(NotFound);
      }
      var wd := prisma.withdrawals[id];
      if wd.status.Completed? {
        return Refused(BadRequest);
      }
      var needsRelease := wd.receipt < |prisma.receipts| && prisma.receipts[wd.receipt].status in HELD;
      if needsRelease {
        var reply, _ := ledger.RunIdempotent(Call(tenant, WithdrawalKey(id, ReleaseWord), Release(wd.receipt)));
        if reply.Err? {
          return Refused(LedgerRefused(reply.error));
        }
      }
      if !wd.status.Rejected? {
        prisma.withdrawals := prisma.withdrawals[id := wd.(status := WithdrawalStatus.Rejected)];
      }
      assert prisma.withdrawals == w.withdrawals[id := wd.(status := WithdrawalStatus.Rejected)];
      verdict := Done;
    }

    /** The goods are consumed before the fee is recomputed. */
    method CompleteWithdrawal(id: nat, tenant: string, priced: bool) returns (verdict: Verdict)
      modifies ledger.prisma
      ensures Served(ledger.prisma.Contents(), verdict)
           == Perform(old(ledger.prisma.Contents()), Action.CompleteWithdrawal(id, tenant, priced))
      ensures KeptHealthy(old(ledger.prisma.Contents()), Action.CompleteWithdrawal(id, tenant, priced),
                          ledger.prisma.Contents())
    {
      hide Invoke, KeptHealthy;
      ServiceKeepsHealthy(ledger.prisma.Contents(), Action.CompleteWithdrawal(id, tenant, priced));
      var prisma := ledger.prisma;
      if !(id < |prisma.withdrawals| && prisma.withdrawals[id].tenant == tenant) {
        return Refused(NotFound);
      }
      var wd := prisma.withdrawals[id];
      if !wd.status.Approved? {
        return Refused(BadRequest);
      }
      var reply, _ := ledger.RunIdempotent(Call(tenant, WithdrawalKey(id, ConsumeWord), Consume(wd.receipt)));
      if reply.Err? {
        return Refused(LedgerRefused(reply.error));
      }
      if !priced {
        return Refused(Conflict);
      }
      prisma.withdrawals := prisma.withdrawals[id := wd.(status := Completed)];
      verdict := Done;
    }
  }

  class WithdrawalsCleanupService {
    const prisma: PrismaService

    constructor (prisma: PrismaService)
      ensures this.prisma == prisma
    {
      this.prisma := prisma;
    }

    /** `expirePendingPayment`: the rows found stale are updated under the status check
        made again. */
    method ExpirePendingPayment()
      modifies prisma
      ensures Served(prisma.Contents(), Done) == Perform(old(prisma.Contents()), Action.ExpirePendingPayments)
      ensures KeptHealthy(old(prisma.Contents()), Action.ExpirePendingPayments, prisma.Contents())
    {
      hide Perform, KeptHealthy;
      ServiceKeepsHealthy(prisma.Contents(), Action.ExpirePendingPayments);
      var cutoff := prisma.now - PENDING_PAYMENT_TTL_MS;
      var ws := prisma.withdrawals;
      var expired := set i: nat | i < |ws| && ws[i].status.PendingPayment? && ws[i].createdAt < cutoff;
      for i := 0 to |ws|
        invariant prisma.Contents() == old(prisma.Contents()).(withdrawals := prisma.withdrawals)
        invariant |prisma.withdrawals| == |ws|
        invariant forall j :: 0 <= j < i ==> prisma.withdrawals[j] == CleanedUp(ws[j], prisma.now)
        invariant forall j :: i <= j < |ws| ==> prisma.withdrawals[j] == ws[j]
      {
        if i in expired && prisma.withdrawals[i].status.PendingPayment? {
          prisma.withdrawals := prisma.withdrawals[i := prisma.withdrawals[i].(status := WithdrawalStatus.Rejected)];
        }
      }
      assert prisma.withdrawals == CleanUp(ws, prisma.now);
      CleanupIsItsAction(old(prisma.Contents()));
    }
  }

  lemma CleanupIsItsAction(w: World)
    ensures Perform(w, Action.ExpirePendingPayments) == Served(w.(withdrawals := CleanUp(w.withdrawals, w.now)), Done)
  {
  }
}
