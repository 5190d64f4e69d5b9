/** The rows the services keep beside the ledger, and the whole database. A pledge,
    loan or trade is named by the identifier drawn before its hold; a release request
    or withdrawal by the position of its row; a lien, whose `pledge_id` is unique, by
    its pledge. */
module Tables {
  import opened InventoryTypes
  import opened Ledger

  datatype User = User(id: string, tenant: string)

  datatype PledgeStatus = Pending | Accepted | Rejected | Expired | Cancelled
  datatype LienStatus = Active | PartiallyReleased | Released | ForceReleased
  datatype RequestStatus = Pending | Approved | Rejected | Cancelled
  datatype WithdrawalStatus = PendingPayment | PaidPendingApproval | Approved | Rejected | Completed
  datatype LoanStatus = Pending | Active | Repaid | Rejected
  datatype TradeStatus = Listed | Settled | Cancelled

  datatype Pledge = Pledge(tenant: string, receipt: nat, held: Option<nat>, client: User, financier: string,
                           quantity: int, status: PledgeStatus, expiresAt: int)

  datatype Lien = Lien(tenant: string, receipt: nat, client: User, financier: string,
                       quantity: int, remaining: int, status: LienStatus, forced: bool)

  datatype Line = Line(lien: nat, receipt: nat, quantity: int)

  datatype Request = Request(tenant: string, client: User, financier: string, lines: seq<Line>, status: RequestStatus)

  datatype Withdrawal = Withdrawal(tenant: string, client: string, receipt: nat, quantity: int,
                                   status: WithdrawalStatus, createdAt: int)

  datatype Loan = Loan(tenant: string, client: string, receipt: nat, quantity: int, status: LoanStatus)

  datatype Trade = Trade(tenant: string, seller: string, buyer: Option<string>, receipt: nat, quantity: int,
                         status: TradeStatus)

  datatype World = World(
    db: Db,
    now: int,
    pledges: map<nat, Pledge>,
    liens: map<nat, Lien>,
    requests: seq<Request>,
    withdrawals: seq<Withdrawal>,
    loans: map<nat, Loan>,
    trades: map<nat, Trade>)

  const EMPTY_WORLD := World(EMPTY_DB, 0, map[], map[], [], [], map[], map[])

  predicate Live(l: Lien) {
    l.status.Active? || l.status.PartiallyReleased?
  }

  // ----- Keys --------------------------------------------------------------

  function PledgeKey(step: Word, id: nat): Key {
    Part(Text(PledgeWord), Part(Text(step), Part(Uuid(id), End)))
  }

  function ForceReleaseKey(id: nat): Key {
    Part(Text(LienWord), Part(Text(ForceReleaseWord), Part(Uuid(id), End)))
  }

  function LineKey(kind: Word, request: nat, line: nat): Key {
    Part(Text(ReleaseWord), Part(Text(kind), Part(Uuid(request), Part(Uuid(line), End))))
  }

  function WithdrawalKey(id: nat, step: Word): Key {
    Part(Text(WithdrawalWord), Part(Uuid(id), Part(Text(step), End)))
  }

  function LoanKey(id: nat, step: Word): Key {
    Part(Text(LoanWord), Part(Uuid(id), Part(Text(step), End)))
  }

  function TradeKey(id: nat, step: Word): Key {
    Part(Text(TradeWord), Part(Uuid(id), Part(Text(step), End)))
  }

  // ----- Sums over request lines -------------------------------------------

  function LineSum(lines: seq<Line>, lien: nat): int {
    if lines == [] then 0
    else LineSum(lines[..|lines| - 1], lien)
         + (if lines[|lines| - 1].lien == lien then lines[|lines| - 1].quantity else 0)
  }

  /** What requests of a status ask of a lien. */
  function AskedOf(requests: seq<Request>, status: RequestStatus, lien: nat): int {
    if requests == [] then 0
    else
      var last := requests[|requests| - 1];
      AskedOf(requests[..|requests| - 1], status, lien) + (if last.status == status then LineSum(last.lines, lien)
                                                           else 0)
  }

  lemma AskedPush(requests: seq<Request>, r: Request, status: RequestStatus, lien: nat)
    ensures AskedOf(requests + [r], status, lien)
         == AskedOf(requests, status, lien) + (if r.status == status then LineSum(r.lines, lien) else 0)
  {
    assert (requests + [r])[..|requests|] == requests;
  }

  lemma {:induction false} AskedSet(requests: seq<Request>, at: nat, r: Request, status: RequestStatus, lien: nat)
    requires at < |requests|
    ensures AskedOf(requests[at := r], status, lien)
         == AskedOf(requests, status, lien)
            - (if requests[at].status == status then LineSum(requests[at].lines, lien) else 0)
            + (if r.status == status then LineSum(r.lines, lien) else 0)
  {
    var n := |requests| - 1;
    if at == n {
      assert requests[at := r][..n] == requests[..n];
    } else {
      AskedSet(requests[..n], at, r, status, lien);
      assert requests[at := r][..n] == requests[..n][at := r];
    }
  }

  lemma {:induction false} LineSumAbsent(lines: seq<Line>, lien: nat)
    requires forall k :: 0 <= k < |lines| ==> lines[k].lien != lien
    ensures LineSum(lines, lien) == 0
  {
    if lines != [] {
      LineSumAbsent(lines[..|lines| - 1], lien);
    }
  }

  predicate DistinctLiens(lines: seq<Line>) {
    forall j, k :: 0 <= j < k < |lines| ==> lines[j].lien != lines[k].lien
  }

  lemma {:induction false} LineSumDistinct(lines: seq<Line>, k: nat)
    requires DistinctLiens(lines) && k < |lines|
    ensures LineSum(lines, lines[k].lien) == lines[k].quantity
  {
    var n := |lines| - 1;
    if k == n {
      LineSumAbsent(lines[..n], lines[k].lien);
    } else {
      LineSumDistinct(lines[..n], k);
    }
  }

  lemma {:induction false} LineSumAtLeast(lines: seq<Line>, k: nat)
    requires k < |lines| && forall j :: 0 <= j < |lines| ==> lines[j].quantity > 0
    ensures LineSum(lines, lines[k].lien) >= lines[k].quantity
  {
    var n := |lines| - 1;
    if k < n {
      LineSumAtLeast(lines[..n], k);
    } else {
      LineSumNonnegative(lines[..n], lines[k].lien);
    }
  }

  lemma {:induction false} LineSumNonnegative(lines: seq<Line>, lien: nat)
    requires forall j :: 0 <= j < |lines| ==> lines[j].quantity > 0
    ensures LineSum(lines, lien) >= 0
  {
    if lines != [] {
      LineSumNonnegative(lines[..|lines| - 1], lien);
    }
  }

  ghost predicate PositiveLines(requests: seq<Request>) {
    forall r :: r in requests ==> forall k :: 0 <= k < |r.lines| ==> r.lines[k].quantity > 0
  }

  /** One pending request never asks more of a lien than all of them do. */
  lemma {:induction false} AskedAtLeast(requests: seq<Request>, at: nat, lien: nat)
    requires at < |requests| && PositiveLines(requests)
    ensures AskedOf(requests, requests[at].status, lien) >= LineSum(requests[at].lines, lien) >= 0
  {
    var n := |requests| - 1;
    LineSumNonnegative(requests[at].lines, lien);
    if at < n {
      AskedAtLeast(requests[..n], at, lien);
      LineSumNonnegative(requests[n].lines, lien);
    } else {
      AskedNonnegative(requests[..n], requests[at].status, lien);
    }
  }

  lemma {:induction false} AskedNonnegative(requests: seq<Request>, status: RequestStatus, lien: nat)
    requires PositiveLines(requests)
    ensures AskedOf(requests, status, lien) >= 0
  {
    if requests != [] {
      AskedNonnegative(requests[..|requests| - 1], status, lien);
      LineSumNonnegative(requests[|requests| - 1].lines, lien);
    }
  }
}
