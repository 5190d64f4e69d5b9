/** Pledges and the liens they become (src/pledges/pledges.service.ts,
    src/admin-liens/admin-liens.service.ts), each method against its action in
    `Services`. */
module Pledges {
  import opened InventoryTypes
  import opened Ledger
  import opened Tables
  import opened Services
  import opened LedgerService
  import opened Encumbrance
  import opened Coupling
  import opened Opening
  import opened Reachable

  class PledgesService {
    const ledger: InventoryLedgerService

    constructor (ledger: InventoryLedgerService)
      ensures this.ledger == ledger
    {
      this.ledger := ledger;
    }

    method CreatePledge(id: nat, caller: User, receipt: nat, financier: string, quantity: int, linked: bool, ttl: nat)
      returns (verdict: Verdict)
      modifies ledger.prisma
      ensures Served(ledger.prisma.Contents(), verdict)
           == Perform(old(ledger.prisma.Contents()),
                      Action.CreatePledge(id, caller, receipt, financier, quantity, linked, ttl))
      ensures KeptHealthy(old(ledger.prisma.Contents()),
                          Action.CreatePledge(id, caller, receipt, financier, quantity, linked, ttl),
                          ledger.prisma.Contents())
    {
      hide Invoke, TreeMass, KeptHealthy;
      ServiceKeepsHealthy(ledger.prisma.Contents(),
                          Action.CreatePledge(id, caller, receipt, financier, quantity, linked, ttl));
      var prisma := ledger.prisma;
      if !(receipt < |prisma.receipts| && prisma.receipts[receipt].client == caller.id
           && prisma.receipts[receipt].tenant == caller.tenant) {
        return Refused(NotFound);
      }
      var r := prisma.receipts[receipt];
      if r.status != ACTIVE && r.status != SPLIT && r.status != PENDING_APPROVAL {
        return Refused(BadRequest);
      }
      if quantity <= 0 {
        return Refused(BadRequest);
      }
      var enc := GetReceiptEncumbrance(prisma.Contents(), caller.id, receipt);
      if quantity > enc.value.available {
        return Refused(BadRequest);
      }
      if !linked {
        return Refused(BadRequest);
      }
      var reply, _ := ledger.RunIdempotent(Call(r.tenant, PledgeKey(CreateWord, id),
                                                Hold(receipt, quantity, HELD_PLEDGE_PENDING, PLEDGE, Uuid(id))));
      if reply.Err? {
        return Refused(LedgerRefused(reply.error));
      }
      var held := HeldOf(reply.value);
      if held.None? || id in prisma.pledges {
        return Refused(Conflict);
      }
      prisma.pledges := prisma.pledges[id := Pledge(caller.tenant, receipt, held, caller, financier, quantity,
                                                    PledgeStatus.Pending,
                                                    prisma.now + ttl)];
      verdict := Done;
    }

    method CancelPledge(id: nat, caller: User) returns (verdict: Verdict)
      modifies ledger.prisma
      ensures Served(ledger.prisma.Contents(), verdict)
           == Perform(old(ledger.prisma.Contents()), Action.CancelPledge(id, caller))
      ensures KeptHealthy(old(ledger.prisma.Contents()), Action.CancelPledge(id, caller), ledger.prisma.Contents())
    {
      hide Invoke, KeptHealthy;
      ServiceKeepsHealthy(ledger.prisma.Contents(), Action.CancelPledge(id, caller));
      var prisma := ledger.prisma;
      if !(id in prisma.pledges && prisma.pledges[id].client == caller) {
        return Refused(NotFound);
      }
      var p := prisma.pledges[id];
      if !p.status.Pending? {
        return Refused(BadRequest);
      }
      if p.held.Some? {
        var reply, _ := ledger.RunIdempotent(Call(p.tenant, PledgeKey(CancelWord, id), Release(p.held.value)));
        if reply.Err? {
          return Refused(LedgerRefused(reply.error));
        }
      }
      prisma.pledges := prisma.pledges[id := p.(status := PledgeStatus.Cancelled)];
      verdict := Done;
    }

    /** The one-time code is consumed before anything changes. */
    method AcceptPledge(id: nat, financier: string, otp: bool) returns (verdict: Verdict)
      modifies ledger.prisma
      ensures Served(ledger.prisma.Contents(), verdict)
           == Perform(old(ledger.prisma.Contents()), Action.AcceptPledge(id, financier, otp))
      ensures KeptHealthy(old(ledger.prisma.Contents()), Action.AcceptPledge(id, financier, otp),
                          ledger.prisma.Contents())
    {
      hide Invoke, KeptHealthy;
      ServiceKeepsHealthy(ledger.prisma.Contents(), Action.AcceptPledge(id, financier, otp));
      var prisma := ledger.prisma;
      if !(id in prisma.pledges && prisma.pledges[id].financier == financier) {
        return Refused(NotFound);
      }
      var p := prisma.pledges[id];
      if !p.status.Pending? {
        return Refused(BadRequest);
      }
      if p.expiresAt < prisma.now {
        return Refused(BadRequest);
      }
      if p.held.None? {
        return Refused(BadRequest);
      }
      if !otp {
        return Refused(Forbidden);
      }
      var reply, _ := ledger.RunIdempotent(Call(p.tenant, PledgeKey(AcceptWord, id),
                                                TransitionPledgeToLien(p.held.value, Uuid(id))));
      if reply.Err? {
        return Refused(LedgerRefused(reply.error));
      }
      if id in prisma.liens {
        return Refused(Conflict);
      }
      prisma.liens := prisma.liens[id := Lien(p.tenant, p.held.value, p.client, p.financier, p.quantity, p.quantity,
                                              LienStatus.Active, false)];
      prisma.pledges := prisma.pledges[id := p.(status := PledgeStatus.Accepted)];
      verdict := Done;
    }

    method RejectPledge(id: nat, financier: string) returns (verdict: Verdict)
      modifies ledger.prisma
      ensures Served(ledger.prisma.Contents(), verdict)
           == Perform(old(ledger.prisma.Contents()), Action.RejectPledge(id, financier))
      ensures KeptHealthy(old(ledger.prisma.Contents()), Action.RejectPledge(id, financier), ledger.prisma.Contents())
    {
      hide Invoke, KeptHealthy;
      ServiceKeepsHealthy(ledger.prisma.Contents(), Action.RejectPledge(id, financier));
      var prisma := ledger.prisma;
      if !(id in prisma.pledges && prisma.pledges[id].financier == financier) {
        return Refused(NotFound);
      }
      var p := prisma.pledges[id];
      if !p.status.Pending? {
        return Refused(BadRequest);
      }
      if p.held.Some? {
        var reply, _ := ledger.RunIdempotent(Call(p.tenant, PledgeKey(RejectWord, id), Release(p.held.value)));
        if reply.Err? {
          return Refused(LedgerRefused(reply.error));
        }
      }
      prisma.pledges := prisma.pledges[id := p.(status := PledgeStatus.Rejected)];
      verdict := Done;
    }

    /** One turn of the expiry loop, for a pledge the query found stale. */
    method ExpirePledge(id: nat) returns (verdict: Verdict)
      requires id in ledger.prisma.Contents().pledges && Stale(ledger.prisma.Contents(), id)
      modifies ledger.prisma
      ensures Served(ledger.prisma.Contents(), verdict)
           == Perform(old(ledger.prisma.Contents()), Action.ExpirePledge(id))
      ensures KeptHealthy(old(ledger.prisma.Contents()), Action.ExpirePledge(id), ledger.prisma.Contents())
    {
      hide Invoke, KeptHealthy;
      ServiceKeepsHealthy(ledger.prisma.Contents(), Action.ExpirePledge(id));
      var prisma := ledger.prisma;
      var p := prisma.pledges[id];
      if p.held.Some? {
        var reply, _ := ledger.RunIdempotent(Call(p.tenant, PledgeKey(ExpireWord, id), Release(p.held.value)));
        if reply.Err? {
          return Refused(LedgerRefused(reply.error));
        }
      }
      prisma.pledges := prisma.pledges[id := p.(status := PledgeStatus.Expired)];
      verdict := Done;
    }

    /** `expireStalePledges`: one bad pledge does not stop the others. Over a healthy
        database there is none: every stale pledge is expired, and no other pledge, lien
        or request changes. */
    method ExpireStalePledges() returns (expired: nat)
      requires Healthy(ledger.prisma.Contents())
      modifies ledger.prisma
      ensures Healthy(ledger.prisma.Contents())
      ensures expired == |StalePledges(old(ledger.prisma.Contents()))|
      ensures StalePledges(ledger.prisma.Contents()) == {}
      ensures ExpiredOf(old(ledger.prisma.Contents()), ledger.prisma.Contents(),
                        StalePledges(old(ledger.prisma.Contents())))
    {
      hide Healthy, Perform, StalePledges, Stale, ExpiredOf, PrismaService.Contents;
      var prisma := ledger.prisma;
      ghost var before := prisma.Contents();
      ghost var all := StalePledges(before);
      var stale := StalePledges(prisma.Contents());
      expired := 0;
      NothingExpiredYet(before);
      assert all - stale == {};
      while stale != {}
        invariant Healthy(prisma.Contents())
        invariant stale == StalePledges(prisma.Contents()) && stale <= all
        invariant expired == |all - stale|
        invariant ExpiredOf(before, prisma.Contents(), all - stale)
        decreases |stale|
      {
        var id :| id in stale;
        StaleExpires(prisma.Contents(), id);
        ExpiresOneMore(before, prisma.Contents(), all - stale, id);
        var verdict := ExpirePledge(id);
        OneMoreExpired(all, stale, id);
        stale := stale - {id};
        if verdict.Done? {
          expired := expired + 1;
        }
      }
      assert all - {} == all;
    }
  }

  lemma OneMoreExpired(all: set<nat>, stale: set<nat>, id: nat)
    requires stale <= all && id in stale
    ensures all - (stale - {id}) == (all - stale) + {id}
    ensures |all - (stale - {id})| == |all - stale| + 1
  {
    assert all - (stale - {id}) == (all - stale) + {id};
  }

  predicate Stale(w: World, id: nat)
    requires id in w.pledges
  {
    w.pledges[id].status.Pending? && w.pledges[id].expiresAt <= w.now
  }

  function StalePledges(w: World): set<nat> {
    set id | id in w.pledges && Stale(w, id)
  }

  /** `v` is `w` with the pledges `ids` expired, on another ledger. */
  ghost predicate ExpiredOf(w: World, v: World, ids: set<nat>) {
    && v == w.(db := v.db, pledges := v.pledges)
    && v.pledges.Keys == w.pledges.Keys
    && forall id :: id in w.pledges ==>
         v.pledges[id] == if id in ids then w.pledges[id].(status := PledgeStatus.Expired) else w.pledges[id]
  }

  lemma NothingExpiredYet(w: World)
    ensures ExpiredOf(w, w, {})
  {
  }

  lemma StaleExpires(w: World, id: nat)
    requires Healthy(w) && id in StalePledges(w)
    ensures id in w.pledges && Stale(w, id)
    ensures var s := Perform(w, Action.ExpirePledge(id));
            && s.verdict.Done? && Healthy(s.world)
            && s.world
               == w.(db := s.world.db, pledges := w.pledges[id := w.pledges[id].(status := PledgeStatus.Expired)])
            && StalePledges(s.world) == StalePledges(w) - {id}
  {
    hide Healthy, Perform;
    StaleIsExpirable(w, id);
    PassedGuardsSucceed(w, Action.ExpirePledge(id));
    ExpiryWritesItsRow(w, id);
  }

  lemma StaleIsExpirable(w: World, id: nat)
    requires id in StalePledges(w)
    ensures id in w.pledges && Stale(w, id)
    ensures var a := Action.ExpirePledge(id);
            Admissible(w, a) && GateOf(w, a).Proceed? && !Opens(a) && !a.LedgerDesk?
  {
  }

  lemma ExpiryWritesItsRow(w: World, id: nat)
    requires id in StalePledges(w) && Perform(w, Action.ExpirePledge(id)).verdict.Done?
    ensures id in w.pledges
    ensures var v := Perform(w, Action.ExpirePledge(id)).world;
            && v == w.(db := v.db, pledges := w.pledges[id := w.pledges[id].(status := PledgeStatus.Expired)])
            && StalePledges(v) == StalePledges(w) - {id}
  {
    hide Invoke;
  }

  lemma ExpiresOneMore(w: World, v: World, ids: set<nat>, id: nat)
    requires Healthy(v) && id in StalePledges(v) && ExpiredOf(w, v, ids)
    ensures ExpiredOf(w, Perform(v, Action.ExpirePledge(id)).world, ids + {id})
  {
    hide Perform, Healthy, StalePledges;
    StaleExpires(v, id);
  }

  class AdminLiensService {
    const ledger: InventoryLedgerService

    constructor (ledger: InventoryLedgerService)
      ensures this.ledger == ledger
    {
      this.ledger := ledger;
    }

    method ForceReleaseLien(id: nat, tenant: string) returns (verdict: Verdict)
      modifies ledger.prisma
      ensures Served(ledger.prisma.Contents(), verdict)
           == Perform(old(ledger.prisma.Contents()), Action.ForceReleaseLien(id, tenant))
      ensures KeptHealthy(old(ledger.prisma.Contents()), Action.ForceReleaseLien(id, tenant), ledger.prisma.Contents())
    {
      hide Invoke, KeptHealthy;
      ServiceKeepsHealthy(ledger.prisma.Contents(), Action.ForceReleaseLien(id, tenant));
      var prisma := ledger.prisma;
      if !(id in prisma.liens && prisma.liens[id].tenant == tenant) {
        return Refused(NotFound);
      }
      var lien := prisma.liens[id];
      if lien.forced {
        return Done;
      }
      if lien.status.Released? {
        return Refused(BadRequest);
      }
      var reply, _ := ledger.RunIdempotent(Call(tenant, ForceReleaseKey(id), Release(lien.receipt)));
      if reply.Err? {
        return Refused(LedgerRefused(reply.error));
      }
      prisma.liens := prisma.liens[id := lien.(status := ForceReleased, remaining := 0, forced := true)];
      verdict := Done;
    }
  }
}
