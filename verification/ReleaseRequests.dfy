/** Release requests (src/release-requests/release-requests.service.ts), each method
    against its action in `Services`. */
module ReleaseRequests {
  import opened Ledger
  import opened Tables
  import opened Services
  import opened LedgerService
  import opened Aside
  import opened Reachable

  class ReleaseRequestsService {
    const ledger: InventoryLedgerService

    constructor (ledger: InventoryLedgerService)
      ensures this.ledger == ledger
    {
      this.ledger := ledger;
    }

    /** `groupBy lienId, _sum quantity` over the lines of pending requests, for one lien. */
    method PendingForLien(lien: nat) returns (total: int)
      ensures total == AskedOf(ledger.prisma.requests, RequestStatus.Pending, lien)
    {
      var requests := ledger.prisma.requests;
      total := 0;
      for i := 0 to |requests|
        invariant total == AskedOf(requests[..i], RequestStatus.Pending, lien)
      {
        assert requests[..i + 1][..i] == requests[..i];
        if requests[i].status.Pending? {
          var before := total;
          for k := 0 to |requests[i].lines|
            invariant total == before + LineSum(requests[i].lines[..k], lien)
          {
            assert requests[i].lines[..k + 1][..k] == requests[i].lines[..k];
            if requests[i].lines[k].lien == lien {
              total := total + requests[i].lines[k].quantity;
            }
          }
          assert requests[i].lines[..|requests[i].lines|] == requests[i].lines;
        }
      }
      assert requests[..|requests|] == requests;
    }

    /** The checks on one line of a new request. */
    method ValidateLine(caller: User, financier: string, input: LineInput) returns (g: Gate)
      ensures g == CheckLine(ledger.prisma.Contents(), caller, financier, input)
    {
      hide AskedOf;
      var prisma := ledger.prisma;
      if input.lien !in prisma.liens {
        return Stop(BadRequest);
      }
      var lien := prisma.liens[input.lien];
      if lien.client != caller {
        return Stop(NotFound);
      }
      if lien.financier != financier {
        return Stop(BadRequest);
      }
      if !lien.status.Active? && !lien.status.PartiallyReleased? {
        return Stop(BadRequest);
      }
      if input.quantity <= 0 {
        return Stop(BadRequest);
      }
      var pending := PendingForLien(input.lien);
      if input.quantity > lien.remaining - pending {
        return Stop(Conflict);
      }
      g := Proceed;
    }

    method CreateReleaseRequest(caller: User, financier: string, inputs: seq<LineInput>) returns (verdict: Verdict)
      modifies ledger.prisma
      ensures Served(ledger.prisma.Contents(), verdict)
           == Perform(old(ledger.prisma.Contents()), Action.CreateReleaseRequest(caller, financier, inputs))
      ensures KeptHealthy(old(ledger.prisma.Contents()), Action.CreateReleaseRequest(caller, financier, inputs),
                          ledger.prisma.Contents())
    {
      hide CheckLine, KeptHealthy;
      ServiceKeepsHealthy(ledger.prisma.Contents(), Action.CreateReleaseRequest(caller, financier, inputs));
      var prisma := ledger.prisma;
      ghost var w := prisma.Contents();
      if inputs == [] {
        return Refused(BadRequest);
      }
      assert inputs[0..] == inputs;
      for k := 0 to |inputs|
        invariant prisma.Contents() == w
        invariant CheckLines(w, caller, financier, inputs) == CheckLines(w, caller, financier, inputs[k..])
      {
        var line := ValidateLine(caller, financier, inputs[k]);
        if line.Stop? {
          return Refused(line.why);
        }
        assert line.Proceed? by { LinesStopOrProceed(w, caller, financier, inputs[k]); }
        assert inputs[k..][1..] == inputs[k + 1..];
      }
      InputsAreOnFile(w, caller, financier, inputs);
      var lines: seq<Line> := [];
      for k := 0 to |inputs|
        invariant prisma.Contents() == w
        invariant lines == LinesOf(w, inputs)[..k]
      {
        lines := lines + [Line(inputs[k].lien, prisma.liens[inputs[k].lien].receipt, inputs[k].quantity)];
      }
      assert lines == LinesOf(w, inputs);
      prisma.requests := prisma.requests + [Request(caller.tenant, caller, financier, lines, RequestStatus.Pending)];
      verdict := Done;
    }

    method CancelReleaseRequest(id: nat, caller: User) returns (verdict: Verdict)
      modifies ledger.prisma
      ensures Served(ledger.prisma.Contents(), verdict)
           == Perform(old(ledger.prisma.Contents()), Action.CancelReleaseRequest(id, caller))
      ensures KeptHealthy(old(ledger.prisma.Contents()), Action.CancelReleaseRequest(id, caller),
                          ledger.prisma.Contents())
    {
      hide KeptHealthy;
      ServiceKeepsHealthy(ledger.prisma.Contents(), Action.CancelReleaseRequest(id, caller));
      var prisma := ledger.prisma;
      if !(id < |prisma.requests| && prisma.requests[id].client == caller) {
        return Refused(NotFound);
      }
      if !prisma.requests[id].status.Pending? {
        return Refused(BadRequest);
      }
      prisma.requests := prisma.requests[id := prisma.requests[id].(status := RequestStatus.Cancelled)];
      verdict := Done;
    }

    method RejectReleaseRequest(id: nat, financier: string) returns (verdict: Verdict)
      modifies ledger.prisma
      ensures Served(ledger.prisma.Contents(), verdict)
           == Perform(old(ledger.prisma.Contents()), Action.RejectReleaseRequest(id, financier))
      ensures KeptHealthy(old(ledger.prisma.Contents()), Action.RejectReleaseRequest(id, financier),
                          ledger.prisma.Contents())
    {
      hide KeptHealthy;
      ServiceKeepsHealthy(ledger.prisma.Contents(), Action.RejectReleaseRequest(id, financier));
      var prisma := ledger.prisma;
      if !(id < |prisma.requests| && prisma.requests[id].financier == financier) {
        return Refused(NotFound);
      }
      if !prisma.requests[id].status.Pending? {
        return Refused(BadRequest);
      }
      prisma.requests := prisma.requests[id := prisma.requests[id].(status := RequestStatus.Rejected)];
      verdict := Done;
    }

    /** One turn of the approval loop. */
    method ReleaseOneLine(request: nat, k: nat, line: Line, lien: Lien) returns (verdict: Verdict)
      requires request < |ledger.prisma.requests|
      modifies ledger.prisma
      ensures Served(ledger.prisma.Contents(), verdict)
           == ReleaseLine(old(ledger.prisma.Contents()), request, k, line, lien)
    {
      hide Invoke;
      var prisma := ledger.prisma;
      var tenant := prisma.requests[request].tenant;
      if line.quantity == lien.remaining {
        var reply, _ := ledger.RunIdempotent(Call(tenant, LineKey(FullWord, request, k), Release(lien.receipt)));
        if reply.Err? {
          return Refused(LedgerRefused(reply.error));
        }
        if line.lien !in prisma.liens {
          return Refused(NotFound);
        }
        prisma.liens :=
          prisma.liens[line.lien := prisma.liens[line.lien].(remaining := 0, status := LienStatus.Released)];
      } else {
        var reply, _ := ledger.RunIdempotent(Call(tenant, LineKey(PartialWord, request, k),
                                                  ReleasePartial(lien.receipt, line.quantity, Uuid(request))));
        if reply.Err? {
          return Refused(LedgerRefused(reply.error));
        }
        if line.lien !in prisma.liens || !reply.value.PartialReply? || reply.value.remainingHeld.None? {
          return Refused(NotFound);
        }
        prisma.liens := prisma.liens[line.lien := prisma.liens[line.lien].(
          receipt := reply.value.remainingHeld.value,
          remaining := lien.remaining - line.quantity,
          status := PartiallyReleased)];
      }
      verdict := Done;
    }

    /** The liens are read once, with the request; the loop works off that snapshot. */
    method ApproveReleaseRequest(id: nat, financier: string, otp: bool) returns (verdict: Verdict)
      modifies ledger.prisma
      ensures Served(ledger.prisma.Contents(), verdict)
           == Perform(old(ledger.prisma.Contents()), Action.ApproveReleaseRequest(id, financier, otp))
      ensures KeptHealthy(old(ledger.prisma.Contents()), Action.ApproveReleaseRequest(id, financier, otp),
                          ledger.prisma.Contents())
    {
      hide ReleaseLine, KeptHealthy, CheckLines, TreeMass, AvailableForWithdrawal, AskedOf;
      ServiceKeepsHealthy(ledger.prisma.Contents(), Action.ApproveReleaseRequest(id, financier, otp));
      var prisma := ledger.prisma;
      ghost var w := prisma.Contents();
      if !(id < |prisma.requests| && prisma.requests[id].financier == financier) {
        return Refused(NotFound);
      }
      var req := prisma.requests[id];
      if !req.status.Pending? {
        return Refused(BadRequest);
      }
      var snapshot := prisma.liens;
      for k := 0 to |req.lines|
        invariant prisma.Contents() == w
        invariant Releasable(w, req.lines[..k])
      {
        if req.lines[k].lien !in snapshot || !Live(snapshot[req.lines[k].lien]) {
          assert !LineReleasable(w, req.lines[k]);
          return Refused(BadRequest);
        }
        if req.lines[k].quantity > snapshot[req.lines[k].lien].remaining {
          assert !LineReleasable(w, req.lines[k]);
          return Refused(BadRequest);
        }
        assert LineReleasable(w, req.lines[k]);
        assert req.lines[..k + 1] == req.lines[..k] + [req.lines[k]];
      }
      assert req.lines[..|req.lines|] == req.lines;
      if !otp {
        return Refused(Forbidden);
      }
      verdict := Done;
      for k := 0 to |req.lines|
        invariant Served(prisma.Contents(), Done) == ReleaseLines(w, snapshot, id, k)
      {
        var line := req.lines[k];
        verdict := ReleaseOneLine(id, k, line, snapshot[line.lien]);
        assert Served(prisma.Contents(), verdict) == ReleaseLines(w, snapshot, id, k + 1);
        if verdict.Refused? {
          RefusalSticks(w, snapshot, id, k + 1, |req.lines|);
          return;
        }
      }
      prisma.requests := prisma.requests[id := prisma.requests[id].(status := RequestStatus.Approved)];
      verdict := Done;
    }
  }

  lemma LinesStopOrProceed(w: World, caller: User, financier: string, input: LineInput)
    ensures !CheckLine(w, caller, financier, input).Nothing?
  {
  }
}
