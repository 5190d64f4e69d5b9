/** Loans and trades, as far as their status and their receipt go
    (src/loans/loans.service.ts, src/trades/trades.service.ts), each method against its
    action in `Services`. */
module LoansAndTrades {
  import opened InventoryTypes
  import opened Ledger
  import opened Tables
  import opened Services
  import opened LedgerService
  import opened Reachable

  class LoansService {
    const ledger: InventoryLedgerService

    constructor (ledger: InventoryLedgerService)
      ensures this.ledger == ledger
    {
      this.ledger := ledger;
    }

    method CreateLoan(id: nat, tenant: string, client: string, receipt: nat,
                      authorised: bool) returns (verdict: Verdict)
      modifies ledger.prisma
      ensures Served(ledger.prisma.Contents(), verdict)
           == Perform(old(ledger.prisma.Contents()), Action.CreateLoan(id, tenant, client, receipt, authorised))
      ensures KeptHealthy(old(ledger.prisma.Contents()), Action.CreateLoan(id, tenant, client, receipt, authorised),
                          ledger.prisma.Contents())
    {
      hide Invoke, KeptHealthy;
      ServiceKeepsHealthy(ledger.prisma.Contents(), Action.CreateLoan(id, tenant, client, receipt, authorised));
      var prisma := ledger.prisma;
      if !authorised {
        return Refused(Forbidden);
      }
      if !Present(prisma.receipts, receipt, tenant) {
        return Refused(NotFound);
      }
      var quantity := prisma.receipts[receipt].quantity;
      var reply, _ := ledger.RunIdempotent(Call(tenant, LoanKey(id, HoldWord),
                                                Hold(receipt, quantity, HELD_LOAN, LOAN, Uuid(id))));
      if reply.Err? {
        return Refused(LedgerRefused(reply.error));
      }
      var held := HeldOf(reply.value);
      if held.None? {
        return Refused(Conflict);
      }
      // an upsert that leaves an existing row alone
      if id !in prisma.loans {
        prisma.loans := prisma.loans[id := Loan(tenant, client, held.value, quantity, LoanStatus.Pending)];
      }
      verdict := Done;
    }

    method ApproveLoan(id: nat, tenant: string) returns (verdict: Verdict)
      modifies ledger.prisma
      ensures Served(ledger.prisma.Contents(), verdict)
           == Perform(old(ledger.prisma.Contents()), Action.ApproveLoan(id, tenant))
      ensures KeptHealthy(old(ledger.prisma.Contents()), Action.ApproveLoan(id, tenant), ledger.prisma.Contents())
    {
      hide Invoke, KeptHealthy;
      ServiceKeepsHealthy(ledger.prisma.Contents(), Action.ApproveLoan(id, tenant));
      var prisma := ledger.prisma;
      if !(id in prisma.loans && prisma.loans[id].tenant == tenant) {
        return Refused(NotFound);
      }
      var loan := prisma.loans[id];
      if !loan.status.Pending? {
        return Refused(BadRequest);
      }
      var reply, _ := ledger.RunIdempotent(Call(tenant, LoanKey(id, ApproveHoldWord), ApproveHold(loan.receipt)));
      if reply.Err? {
        return Refused(LedgerRefused(reply.error));
      }
      prisma.loans := prisma.loans[id := loan.(status := LoanStatus.Active)];
      verdict := Done;
    }

    method RejectLoan(id: nat, tenant: string) returns (verdict: Verdict)
      modifies ledger.prisma
      ensures Served(ledger.prisma.Contents(), verdict)
           == Perform(old(ledger.prisma.Contents()), Action.RejectLoan(id, tenant))
      ensures KeptHealthy(old(ledger.prisma.Contents()), Action.RejectLoan(id, tenant), ledger.prisma.Contents())
    {
      hide Invoke, KeptHealthy;
      ServiceKeepsHealthy(ledger.prisma.Contents(), Action.RejectLoan(id, tenant));
      var prisma := ledger.prisma;
      if !(id in prisma.loans && prisma.loans[id].tenant == tenant) {
        return Refused(NotFound);
      }
      var loan := prisma.loans[id];
      if !loan.status.Pending? {
        return Refused(BadRequest);
      }
      var reply, _ := ledger.RunIdempotent(Call(tenant, LoanKey(id, ReleaseWord), Release(loan.receipt)));
      if reply.Err? {
        return Refused(LedgerRefused(reply.error));
      }
      prisma.loans := prisma.loans[id := loan.(status := LoanStatus.Rejected)];
      verdict := Done;
    }

    method RepayLoan(id: nat, tenant: string) returns (verdict: Verdict)
      modifies ledger.prisma
      ensures Served(ledger.prisma.Contents(), verdict)
           == Perform(old(ledger.prisma.Contents()), Action.RepayLoan(id, tenant))
      ensures KeptHealthy(old(ledger.prisma.Contents()), Action.RepayLoan(id, tenant), ledger.prisma.Contents())
    {
      hide Invoke, KeptHealthy;
      ServiceKeepsHealthy(ledger.prisma.Contents(), Action.RepayLoan(id, tenant));
      var prisma := ledger.prisma;
      if !(id in prisma.loans && prisma.loans[id].tenant == tenant) {
        return Refused(NotFound);
      }
      var loan := prisma.loans[id];
      if !loan.status.Active? {
        return Refused(BadRequest);
      }
      var reply, _ := ledger.RunIdempotent(Call(tenant, LoanKey(id, RepayReleaseWord), Release(loan.receipt)));
      if reply.Err? {
        return Refused(LedgerRefused(reply.error));
      }
      prisma.loans := prisma.loans[id := loan.(status := Repaid)];
      verdict := Done;
    }
  }

  class TradesService {
    const ledger: InventoryLedgerService

    constructor (ledger: InventoryLedgerService)
      ensures this.ledger == ledger
    {
      this.ledger := ledger;
    }

    method CreateTrade(id: nat, tenant: string, client: string, receipt: nat,
                       authorised: bool) returns (verdict: Verdict)
      modifies ledger.prisma
      ensures Served(ledger.prisma.Contents(), verdict)
           == Perform(old(ledger.prisma.Contents()), Action.CreateTrade(id, tenant, client, receipt, authorised))
      ensures KeptHealthy(old(ledger.prisma.Contents()), Action.CreateTrade(id, tenant, client, receipt, authorised),
                          ledger.prisma.Contents())
    {
      hide Invoke, KeptHealthy;
      ServiceKeepsHealthy(ledger.prisma.Contents(), Action.CreateTrade(id, tenant, client, receipt, authorised));
      var prisma := ledger.prisma;
      if !authorised {
        return Refused(Forbidden);
      }
      if !Present(prisma.receipts, receipt, tenant) {
        return Refused(NotFound);
      }
      var quantity := prisma.receipts[receipt].quantity;
      var reply, _ := ledger.RunIdempotent(Call(tenant, TradeKey(id, HoldWord),
                                                Hold(receipt, quantity, HELD_TRADE, TRADE, Uuid(id))));
      if reply.Err? {
        return Refused(LedgerRefused(reply.error));
      }
      var held := HeldOf(reply.value);
      if held.None? {
        return Refused(Conflict);
      }
      // an upsert that leaves an existing row alone
      if id !in prisma.trades {
        prisma.trades := prisma.trades[id := Trade(tenant, client, None, held.value, quantity, Listed)];
      }
      verdict := Done;
    }

    /** The trade row is written inside the ledger transaction, so exactly when that ran. */
    method SettleTrade(id: nat, tenant: string, buyer: string, known: bool) returns (verdict: Verdict)
      modifies ledger.prisma
      ensures Served(ledger.prisma.Contents(), verdict)
           == Perform(old(ledger.prisma.Contents()), Action.SettleTrade(id, tenant, buyer, known))
      ensures KeptHealthy(old(ledger.prisma.Contents()), Action.SettleTrade(id, tenant, buyer, known),
                          ledger.prisma.Contents())
    {
      hide Invoke, KeptHealthy;
      ServiceKeepsHealthy(ledger.prisma.Contents(), Action.SettleTrade(id, tenant, buyer, known));
      var prisma := ledger.prisma;
      if !(id in prisma.trades && prisma.trades[id].tenant == tenant) {
        return Refused(NotFound);
      }
      var trade := prisma.trades[id];
      if trade.seller == buyer {
        return Refused(BadRequest);
      }
      if trade.status.Settled? && trade.buyer == Some(buyer) {
        return Done;
      }
      if !trade.status.Listed? {
        return Refused(BadRequest);
      }
      if !known {
        return Refused(NotFound);
      }
      var reply, ran := ledger.RunIdempotent(Call(tenant, TradeKey(id, TransferWord),
                                                  TransferAndRelease(trade.receipt, buyer, TRADE, Uuid(id))));
      if reply.Err? {
        return Refused(LedgerRefused(reply.error));
      }
      if ran {
        prisma.trades := prisma.trades[id := trade.(status := Settled, buyer := Some(buyer))];
      }
      verdict := Done;
    }

    method CancelTrade(id: nat, tenant: string) returns (verdict: Verdict)
      modifies ledger.prisma
      ensures Served(ledger.prisma.Contents(), verdict)
           == Perform(old(ledger.prisma.Contents()), Action.CancelTrade(id, tenant))
      ensures KeptHealthy(old(ledger.prisma.Contents()), Action.CancelTrade(id, tenant), ledger.prisma.Contents())
    {
      hide Invoke, KeptHealthy;
      ServiceKeepsHealthy(ledger.prisma.Contents(), Action.CancelTrade(id, tenant));
      var prisma := ledger.prisma;
      if !(id in prisma.trades && prisma.trades[id].tenant == tenant) {
        return Refused(NotFound);
      }
      var trade := prisma.trades[id];
      if !trade.status.Listed? {
        return Refused(BadRequest);
      }
      var reply, _ := ledger.RunIdempotent(Call(tenant, TradeKey(id, CancelReleaseWord), Release(trade.receipt)));
      if reply.Err? {
        return Refused(LedgerRefused(reply.error));
      }
      prisma.trades := prisma.trades[id := trade.(status := TradeStatus.Cancelled)];
      verdict := Done;
    }
  }
}
