/** The services on top of the ledger, as functions on the database
    (src/pledges, src/release-requests, src/admin-liens, src/withdrawals, src/loans,
    src/trades). Each call checks its own row, makes at most one ledger call in its
    own transaction, and then writes its row; only the approval of a release request
    makes several ledger calls. */
module Services {
  import opened InventoryTypes
  import opened Mass
  import opened Ledger
  import opened Conservation
  import opened Tables

  datatype Refusal = NotFound | Forbidden | BadRequest | Conflict | LedgerRefused(error: Error)

  datatype Verdict = Done | Refused(why: Refusal)

  datatype Served = Served(world: World, verdict: Verdict)

  datatype LineInput = LineInput(lien: nat, quantity: int)

  /** One service call. Booleans stand for what the model cannot see: OTP and PIN
      checks, an onboarded financier, a fee policy on file, a permitted actor. */
  datatype Action =
    | CreatePledge(id: nat, caller: User, receipt: nat, financier: string, quantity: int, linked: bool, ttl: nat)
    | CancelPledge(id: nat, caller: User)
    | AcceptPledge(id: nat, financier: string, otp: bool)
    | RejectPledge(id: nat, financier: string)
    | ExpirePledge(id: nat)
    | CreateReleaseRequest(caller: User, financier: string, inputs: seq<LineInput>)
    | CancelReleaseRequest(id: nat, caller: User)
    | RejectReleaseRequest(id: nat, financier: string)
    | ApproveReleaseRequest(id: nat, financier: string, otp: bool)
    | ForceReleaseLien(id: nat, tenant: string)
    | CreateWithdrawal(tenant: string, client: string, receipt: nat, quantity: int, authorised: bool, priced: bool)
    | ConfirmPayment(id: nat, tenant: string, permitted: bool)
    | ApproveWithdrawal(id: nat, tenant: string)
    | RejectWithdrawal(id: nat, tenant: string)
    | CompleteWithdrawal(id: nat, tenant: string, priced: bool)
    | ExpirePendingPayments
    | CreateLoan(id: nat, tenant: string, client: string, receipt: nat, authorised: bool)
    | ApproveLoan(id: nat, tenant: string)
    | RejectLoan(id: nat, tenant: string)
    | RepayLoan(id: nat, tenant: string)
    | CreateTrade(id: nat, tenant: string, client: string, receipt: nat, authorised: bool)
    | SettleTrade(id: nat, tenant: string, buyer: string, known: bool)
    | CancelTrade(id: nat, tenant: string)
    | LedgerDesk(call: Call)
    | Tick(ms: nat)

  /** The outcome of the checks a call makes before it touches anything. */
  datatype Gate = Stop(why: Refusal) | Nothing | Proceed

  // ----- Pending-payment window --------------------------------------------

  const PENDING_PAYMENT_TTL_MS: int := 30 * 60 * 1000

  function WithdrawalQuantities(ws: seq<Withdrawal>): (column: seq<int>)
    ensures |column| == |ws|
    ensures forall i :: 0 <= i < |ws| ==> column[i] == ws[i].quantity
  {
    seq(|ws|, i requires 0 <= i < |ws| => ws[i].quantity)
  }

  predicate Reserving(wd: Withdrawal, now: int, tenant: string, receipt: nat) {
    && wd.tenant == tenant && wd.receipt == receipt && wd.status.PendingPayment?
    && wd.createdAt > now - PENDING_PAYMENT_TTL_MS
  }

  function ReservingIds(ws: seq<Withdrawal>, now: int, tenant: string, receipt: nat): set<nat> {
    set i: nat | i < |ws| && Reserving(ws[i], now, tenant, receipt)
  }

  /** `availableForWithdrawal`. */
  function AvailableForWithdrawal(ws: seq<Withdrawal>, now: int, tenant: string, receipt: nat, quantity: int): int {
    quantity - Sum(WithdrawalQuantities(ws), ReservingIds(ws, now, tenant, receipt))
  }

  /** What the cleanup job does to one row. */
  function CleanedUp(wd: Withdrawal, now: int): Withdrawal {
    if wd.status.PendingPayment? && wd.createdAt < now - PENDING_PAYMENT_TTL_MS
    then wd.(status := WithdrawalStatus.Rejected) else wd
  }

  function CleanUp(ws: seq<Withdrawal>, now: int): (r: seq<Withdrawal>)
    ensures |r| == |ws|
    ensures forall i :: 0 <= i < |ws| ==> r[i] == CleanedUp(ws[i], now)
  {
    seq(|ws|, i requires 0 <= i < |ws| => CleanedUp(ws[i], now))
  }

  // ----- Encumbrance, as far as the pledge check needs it -------------------

  /** The rows of a receipt's tree with one of some statuses: those filed under it, and itself. */
  function TreeRows(receipts: seq<Receipt>, x: nat, statuses: set<ReceiptStatus>): set<nat> {
    set i: nat | i < |receipts| && x < |receipts| && receipts[i].tenant == receipts[x].tenant
                 && (receipts[i].root == x || i == x) && receipts[i].status in statuses
  }

  function TreeMass(receipts: seq<Receipt>, x: nat, statuses: set<ReceiptStatus>): int {
    Sum(QuantityColumn(receipts), TreeRows(receipts, x, statuses))
  }

  // ----- Gates -------------------------------------------------------------

  function CheckLine(w: World, caller: User, financier: string, input: LineInput): Gate {
    if input.lien !in w.liens then Stop(BadRequest)
    else
      var lien := w.liens[input.lien];
      if lien.client != caller then Stop(NotFound)
      else if lien.financier != financier then Stop(BadRequest)
      else if !Live(lien) then Stop(BadRequest)
      else if input.quantity <= 0 then Stop(BadRequest)
      else if input.quantity > lien.remaining - AskedOf(w.requests, RequestStatus.Pending, input.lien)
        then Stop(Conflict)
      else Proceed
  }

  /** The first line that is refused refuses the request. */
  function CheckLines(w: World, caller: User, financier: string, inputs: seq<LineInput>): (g: Gate)
    ensures g.Proceed? <==> forall k :: 0 <= k < |inputs| ==> CheckLine(w, caller, financier, inputs[k]).Proceed?
    ensures !g.Nothing?
  {
    if inputs == [] then Proceed
    else
      var first := CheckLine(w, caller, financier, inputs[0]);
      if !first.Proceed? then first else CheckLines(w, caller, financier, inputs[1..])
  }

  predicate MyPledge(w: World, id: nat, financier: string) {
    id in w.pledges && w.pledges[id].financier == financier
  }

  function GateOf(w: World, a: Action): Gate {
    match a
    case CreatePledge(id, caller, x, financier, quantity, linked, ttl) =>
      if !(x < |w.db.receipts| && w.db.receipts[x].client == caller.id && w.db.receipts[x].tenant == caller.tenant)
      then Stop(NotFound)
      else if w.db.receipts[x].status !in {ACTIVE, SPLIT, PENDING_APPROVAL} then Stop(BadRequest)
      else if quantity <= 0 then Stop(BadRequest)
      else if quantity > TreeMass(w.db.receipts, x, {ACTIVE}) then Stop(BadRequest)
      else if !linked then Stop(BadRequest)
      else Proceed
    case CancelPledge(id, caller) =>
      if !(id in w.pledges && w.pledges[id].client == caller) then Stop(NotFound)
      else if !w.pledges[id].status.Pending? then Stop(BadRequest)
      else Proceed
    case AcceptPledge(id, financier, otp) =>
      if !MyPledge(w, id, financier) then Stop(NotFound)
      else if !w.pledges[id].status.Pending? then Stop(BadRequest)
      else if w.pledges[id].expiresAt < w.now then Stop(BadRequest)
      else if w.pledges[id].held.None? then Stop(BadRequest)
      else if !otp then Stop(Forbidden)
      else Proceed
    case RejectPledge(id, financier) =>
      if !MyPledge(w, id, financier) then Stop(NotFound)
      else if !w.pledges[id].status.Pending? then Stop(BadRequest)
      else Proceed
    case ExpirePledge(id) =>
      if id in w.pledges && w.pledges[id].status.Pending? && w.pledges[id].expiresAt <= w.now then Proceed else Nothing
    case CreateReleaseRequest(caller, financier, inputs) =>
      if inputs == [] then Stop(BadRequest) else CheckLines(w, caller, financier, inputs)
    case CancelReleaseRequest(id, caller) =>
      if !(id < |w.requests| && w.requests[id].client == caller) then Stop(NotFound)
      else if !w.requests[id].status.Pending? then Stop(BadRequest)
      else Proceed
    case RejectReleaseRequest(id, financier) =>
      if !(id < |w.requests| && w.requests[id].financier == financier) then Stop(NotFound)
      else if !w.requests[id].status.Pending? then Stop(BadRequest)
      else Proceed
    case ApproveReleaseRequest(id, financier, otp) =>
      if !(id < |w.requests| && w.requests[id].financier == financier) then Stop(NotFound)
      else if !w.requests[id].status.Pending? then Stop(BadRequest)
      else if !Releasable(w, w.requests[id].lines) then Stop(BadRequest)
      else if !otp then Stop(Forbidden)
      else Proceed
    case ForceReleaseLien(id, tenant) =>
      if !(id in w.liens && w.liens[id].tenant == tenant) then Stop(NotFound)
      else if w.liens[id].forced then Nothing
      else if w.liens[id].status.Released? then Stop(BadRequest)
      else Proceed
    case CreateWithdrawal(tenant, client, x, quantity, authorised, priced) =>
      if quantity <= 0 then Stop(BadRequest)
      else if !authorised then Stop(Forbidden)
      else if !Present(w.db.receipts, x, tenant) then Stop(NotFound)
      else
        var r := w.db.receipts[x];
        if r.status != ACTIVE || r.approval != APPROVED || r.isParent then Stop(Conflict)
        else if exists i :: 0 <= i < |w.withdrawals| && w.withdrawals[i].client == client
                            && Reserving(w.withdrawals[i], w.now, tenant, x) then Stop(Conflict)
        else if quantity > AvailableForWithdrawal(w.withdrawals, w.now, tenant, x, r.quantity) then Stop(Conflict)
        else if !priced then Stop(BadRequest)
        else Proceed
    case ConfirmPayment(id, tenant, permitted) =>
      if !(id < |w.withdrawals| && w.withdrawals[id].tenant == tenant) then Stop(NotFound)
      else if !permitted then Stop(Forbidden)
      else if !w.withdrawals[id].status.PendingPayment? then Stop(BadRequest)
      else Proceed
    case ApproveWithdrawal(id, tenant) =>
      if !(id < |w.withdrawals| && w.withdrawals[id].tenant == tenant) then Stop(NotFound)
      else if !w.withdrawals[id].status.PaidPendingApproval? then Stop(BadRequest)
      else Proceed
    case RejectWithdrawal(id, tenant) =>
      if !(id < |w.withdrawals| && w.withdrawals[id].tenant == tenant) then Stop(NotFound)
      else if w.withdrawals[id].status.Completed? then Stop(BadRequest)
      else Proceed
    case CompleteWithdrawal(id, tenant, priced) =>
      if !(id < |w.withdrawals| && w.withdrawals[id].tenant == tenant) then Stop(NotFound)
      else if !w.withdrawals[id].status.Approved? then Stop(BadRequest)
      else Proceed
    case CreateLoan(id, tenant, client, x, authorised) =>
      if !authorised then Stop(Forbidden)
      else if !Present(w.db.receipts, x, tenant) then Stop(NotFound)
      else Proceed
    case ApproveLoan(id, tenant) => LoanGate(w, id, tenant, LoanStatus.Pending)
    case RejectLoan(id, tenant) => LoanGate(w, id, tenant, LoanStatus.Pending)
    case RepayLoan(id, tenant) => LoanGate(w, id, tenant, LoanStatus.Active)
    case CreateTrade(id, tenant, client, x, authorised) =>
      if !authorised then Stop(Forbidden)
      else if !Present(w.db.receipts, x, tenant) then Stop(NotFound)
      else Proceed
    case SettleTrade(id, tenant, buyer, known) =>
      if !(id in w.trades && w.trades[id].tenant == tenant) then Stop(NotFound)
      else if w.trades[id].seller == buyer then Stop(BadRequest)
      else if w.trades[id].status.Settled? && w.trades[id].buyer == Some(buyer) then Nothing
      else if !w.trades[id].status.Listed? then Stop(BadRequest)
      else if !known then Stop(NotFound)
      else Proceed
    case CancelTrade(id, tenant) =>
      if !(id in w.trades && w.trades[id].tenant == tenant) then Stop(NotFound)
      else if !w.trades[id].status.Listed? then Stop(BadRequest)
      else Proceed
    case _ => Proceed
  }

  function LoanGate(w: World, id: nat, tenant: string, expected: LoanStatus): Gate {
    if !(id in w.loans && w.loans[id].tenant == tenant) then Stop(NotFound)
    else if w.loans[id].status != expected then Stop(BadRequest)
    else Proceed
  }

  /** The check made again at approval time, line by line. */
  predicate Releasable(w: World, lines: seq<Line>) {
    forall k :: 0 <= k < |lines| ==> LineReleasable(w, lines[k])
  }

  predicate LineReleasable(w: World, line: Line) {
    line.lien in w.liens && Live(w.liens[line.lien]) && line.quantity <= w.liens[line.lien].remaining
  }

  // ----- The ledger call of an action --------------------------------------

  function ReleaseOf(tenant: string, receipt: nat, key: Key): Call {
    Call(tenant, key, Release(receipt))
  }

  function PledgeRelease(w: World, id: nat, step: Word): Option<Call>
    requires id in w.pledges
  {
    var p := w.pledges[id];
    if p.held.Some? then Some(ReleaseOf(p.tenant, p.held.value, PledgeKey(step, id))) else None
  }

  function LedgerCall(w: World, a: Action): Option<Call>
    requires GateOf(w, a).Proceed?
  {
    match a
    case CreatePledge(id, caller, x, financier, quantity, linked, ttl) =>
      Some(Call(caller.tenant, PledgeKey(CreateWord, id), Hold(x, quantity, HELD_PLEDGE_PENDING, PLEDGE, Uuid(id))))
    case CancelPledge(id, _) => PledgeRelease(w, id, CancelWord)
    case RejectPledge(id, _) => PledgeRelease(w, id, RejectWord)
    case ExpirePledge(id) => PledgeRelease(w, id, ExpireWord)
    case AcceptPledge(id, _, _) =>
      var p := w.pledges[id];
      Some(Call(p.tenant, PledgeKey(AcceptWord, id), TransitionPledgeToLien(p.held.value, Uuid(id))))
    case ForceReleaseLien(id, tenant) => Some(ReleaseOf(tenant, w.liens[id].receipt, ForceReleaseKey(id)))
    case ConfirmPayment(id, tenant, _) =>
      var wd := w.withdrawals[id];
      Some(Call(tenant, WithdrawalKey(id, HoldWord), Hold(wd.receipt, wd.quantity, HELD_WITHDRAWAL, WITHDRAWAL,
                                                          Uuid(id))))
    case ApproveWithdrawal(id, tenant) =>
      Some(Call(tenant, WithdrawalKey(id, ApproveHoldWord), ApproveHold(w.withdrawals[id].receipt)))
    case RejectWithdrawal(id, tenant) =>
      // driven by the receipt's own status, not by the withdrawal's
      var x := w.withdrawals[id].receipt;
      if x < |w.db.receipts| && w.db.receipts[x].status in HELD
      then Some(ReleaseOf(tenant, x, WithdrawalKey(id, ReleaseWord))) else None
    case CompleteWithdrawal(id, tenant, _) =>
      Some(Call(tenant, WithdrawalKey(id, ConsumeWord), Consume(w.withdrawals[id].receipt)))
    case CreateLoan(id, tenant, client, x, _) =>
      Some(Call(tenant, LoanKey(id, HoldWord), Hold(x, w.db.receipts[x].quantity, HELD_LOAN, LOAN, Uuid(id))))
    case ApproveLoan(id, tenant) => Some(Call(tenant, LoanKey(id, ApproveHoldWord), ApproveHold(w.loans[id].receipt)))
    case RejectLoan(id, tenant) => Some(ReleaseOf(tenant, w.loans[id].receipt, LoanKey(id, ReleaseWord)))
    case RepayLoan(id, tenant) => Some(ReleaseOf(tenant, w.loans[id].receipt, LoanKey(id, RepayReleaseWord)))
    case CreateTrade(id, tenant, client, x, _) =>
      Some(Call(tenant, TradeKey(id, HoldWord), Hold(x, w.db.receipts[x].quantity, HELD_TRADE, TRADE, Uuid(id))))
    case SettleTrade(id, tenant, buyer, _) =>
      Some(Call(tenant, TradeKey(id, TransferWord), TransferAndRelease(w.trades[id].receipt, buyer, TRADE, Uuid(id))))
    case CancelTrade(id, tenant) => Some(ReleaseOf(tenant, w.trades[id].receipt, TradeKey(id, CancelReleaseWord)))
    case LedgerDesk(call) => Some(call)
    case _ => None
  }

  // ----- The row an action writes afterwards -------------------------------

  function SetPledge(w: World, id: nat, status: PledgeStatus): World
    requires id in w.pledges
  {
    w.(pledges := w.pledges[id := w.pledges[id].(status := status)])
  }

  function SetRequest(w: World, id: nat, status: RequestStatus): World
    requires id < |w.requests|
  {
    w.(requests := w.requests[id := w.requests[id].(status := status)])
  }

  function SetWithdrawal(w: World, id: nat, status: WithdrawalStatus): World
    requires id < |w.withdrawals|
  {
    w.(withdrawals := w.withdrawals[id := w.withdrawals[id].(status := status)])
  }

  function SetLoan(w: World, id: nat, status: LoanStatus): World
    requires id in w.loans
  {
    w.(loans := w.loans[id := w.loans[id].(status := status)])
  }

  function SetTrade(w: World, id: nat, status: TradeStatus): World
    requires id in w.trades
  {
    w.(trades := w.trades[id := w.trades[id].(status := status)])
  }

  function LinesOf(w: World, inputs: seq<LineInput>): (lines: seq<Line>)
    requires forall k :: 0 <= k < |inputs| ==> inputs[k].lien in w.liens
    ensures |lines| == |inputs|
    ensures forall k :: 0 <= k < |inputs| ==>
              lines[k] == Line(inputs[k].lien, w.liens[inputs[k].lien].receipt, inputs[k].quantity)
  {
    seq(|inputs|, k requires 0 <= k < |inputs| =>
      Line(inputs[k].lien, w.liens[inputs[k].lien].receipt, inputs[k].quantity))
  }

  /** The held child a hold hands back; reading it off a reply that has none throws. */
  function HeldOf(reply: Reply): Option<nat> {
    if reply.HoldReply? then reply.held else None
  }

  /** The row writes after the ledger call returned `reply`; `w` is the world before
      the action, `db` the ledger after its call. None: the writes throw. */
  function Finish(w: World, db: Db, a: Action, reply: Reply): Option<World>
    requires GateOf(w, a).Proceed?
  {
    var v := w.(db := db);
    match a
    case CreatePledge(id, caller, x, financier, quantity, linked, ttl) =>
      var held := HeldOf(reply);
      if held.None? || id in w.pledges then None
      else Some(v.(pledges := w.pledges[id := Pledge(caller.tenant, x, held, caller, financier, quantity,
                                                     PledgeStatus.Pending, w.now + ttl)]))
    case CancelPledge(id, _) => Some(SetPledge(v, id, PledgeStatus.Cancelled))
    case RejectPledge(id, _) => Some(SetPledge(v, id, PledgeStatus.Rejected))
    case ExpirePledge(id) => Some(SetPledge(v, id, PledgeStatus.Expired))
    case AcceptPledge(id, _, _) =>
      var p := w.pledges[id];
      if id in w.liens then None
      else Some(SetPledge(v.(liens := w.liens[id := Lien(p.tenant, p.held.value, p.client, p.financier, p.quantity,
                                                         p.quantity, LienStatus.Active, false)]),
                          id, PledgeStatus.Accepted))
    case CreateReleaseRequest(caller, financier, inputs) =>
      Some(v.(requests := w.requests + [Request(caller.tenant, caller, financier, LinesOf(w, inputs),
                                                RequestStatus.Pending)]))
    case CancelReleaseRequest(id, _) => Some(SetRequest(v, id, RequestStatus.Cancelled))
    case RejectReleaseRequest(id, _) => Some(SetRequest(v, id, RequestStatus.Rejected))
    case ForceReleaseLien(id, _) =>
      Some(v.(liens := w.liens[id := w.liens[id].(status := ForceReleased, remaining := 0, forced := true)]))
    case CreateWithdrawal(tenant, client, x, quantity, _, _) =>
      Some(v.(withdrawals := w.withdrawals + [Withdrawal(tenant, client, x, quantity, PendingPayment, w.now)]))
    case ConfirmPayment(id, _, _) =>
      var held := HeldOf(reply);
      if held.None? then None
      else Some(v.(withdrawals :=
                     w.withdrawals[id := w.withdrawals[id].(status := PaidPendingApproval, receipt := held.value)]))
    case ApproveWithdrawal(id, _) => Some(SetWithdrawal(v, id, WithdrawalStatus.Approved))
    case RejectWithdrawal(id, _) => Some(SetWithdrawal(v, id, WithdrawalStatus.Rejected))
    case CompleteWithdrawal(id, _, priced) =>
      // the fee is recomputed after the goods are consumed, and that may throw
      if !priced then None else Some(SetWithdrawal(v, id, Completed))
    case ExpirePendingPayments => Some(v.(withdrawals := CleanUp(w.withdrawals, w.now)))
    case CreateLoan(id, tenant, client, x, _) =>
      var held := HeldOf(reply);
      if held.None? then None
      else if id in w.loans then Some(v)
      else Some(v.(loans := w.loans[id := Loan(tenant, client, held.value, w.db.receipts[x].quantity,
                                               LoanStatus.Pending)]))
    case ApproveLoan(id, _) => Some(SetLoan(v, id, LoanStatus.Active))
    case RejectLoan(id, _) => Some(SetLoan(v, id, LoanStatus.Rejected))
    case RepayLoan(id, _) => Some(SetLoan(v, id, Repaid))
    case CreateTrade(id, tenant, client, x, _) =>
      var held := HeldOf(reply);
      if held.None? then None
      else if id in w.trades then Some(v)
      else Some(v.(trades := w.trades[id := Trade(tenant, client, None, held.value, w.db.receipts[x].quantity,
                                                  Listed)]))
    case SettleTrade(id, _, buyer, _) =>
      // written inside the ledger transaction, so not again on a replay
      if db == w.db then Some(v)
      else Some(v.(trades := w.trades[id := w.trades[id].(status := Settled, buyer := Some(buyer))]))
    case CancelTrade(id, _) => Some(SetTrade(v, id, TradeStatus.Cancelled))
    case Tick(ms) => Some(v.(now := w.now + ms))
    case _ => Some(v)
  }

  // ----- The approval loop -------------------------------------------------

  /** One line of the approval loop. `lien` is the snapshot taken with the request,
      before the loop. */
  function ReleaseLine(w: World, request: nat, k: nat, line: Line, lien: Lien): Served
    requires request < |w.requests|
  {
    var tenant := w.requests[request].tenant;
    if line.quantity == lien.remaining then
      var o := Invoke(w.db, ReleaseOf(tenant, lien.receipt, LineKey(FullWord, request, k)));
      if o.reply.Err? then Served(w.(db := o.db), Refused(LedgerRefused(o.reply.error)))
      else if line.lien !in w.liens then Served(w.(db := o.db), Refused(NotFound))
      else Served(w.(db := o.db,
                     liens := w.liens[line.lien := w.liens[line.lien].(remaining := 0, status := LienStatus.Released)]),
                  Done)
    else
      var o := Invoke(w.db, Call(tenant, LineKey(PartialWord, request, k),
                                 ReleasePartial(lien.receipt, line.quantity, Uuid(request))));
      if o.reply.Err? then Served(w.(db := o.db), Refused(LedgerRefused(o.reply.error)))
      else if line.lien !in w.liens || !o.reply.value.PartialReply? || o.reply.value.remainingHeld.None?
      then Served(w.(db := o.db), Refused(NotFound))
      else Served(w.(db := o.db,
                     liens := w.liens[line.lien := w.liens[line.lien].(
                       receipt := o.reply.value.remainingHeld.value,
                       remaining := lien.remaining - line.quantity,
                       status := PartiallyReleased)]), Done)
  }

  /** The first `n` lines, with the liens as they were in `snapshot`. */
  function ReleaseLines(w: World, snapshot: map<nat, Lien>, request: nat, n: nat): (s: Served)
    requires request < |w.requests| && n <= |w.requests[request].lines|
    requires forall k :: 0 <= k < |w.requests[request].lines| ==> w.requests[request].lines[k].lien in snapshot
    ensures s.world.requests == w.requests
  {
    if n == 0 then Served(w, Done)
    else
      var before := ReleaseLines(w, snapshot, request, n - 1);
      if before.verdict.Refused? then before
      else
        var line := w.requests[request].lines[n - 1];
        ReleaseLine(before.world, request, n - 1, line, snapshot[line.lien])
  }

  /** Once a line is refused, so is every longer prefix. */
  lemma {:induction false} RefusalSticks(w: World, snapshot: map<nat, Lien>, request: nat, m: nat, n: nat)
    requires request < |w.requests| && m <= n <= |w.requests[request].lines|
    requires forall k :: 0 <= k < |w.requests[request].lines| ==> w.requests[request].lines[k].lien in snapshot
    requires ReleaseLines(w, snapshot, request, m).verdict.Refused?
    ensures ReleaseLines(w, snapshot, request, n) == ReleaseLines(w, snapshot, request, m)
  {
    hide ReleaseLine;
    if m < n {
      RefusalSticks(w, snapshot, request, m, n - 1);
    }
  }

  function ApproveRequest(w: World, request: nat): Served
    requires request < |w.requests| && Releasable(w, w.requests[request].lines)
  {
    var released := ReleaseLines(w, w.liens, request, |w.requests[request].lines|);
    if released.verdict.Refused? then released
    else Served(SetRequest(released.world, request, RequestStatus.Approved), Done)
  }

  // ----- A whole call ------------------------------------------------------

  function Perform(w: World, a: Action): Served {
    var gate := GateOf(w, a);
    if gate.Stop? then Served(w, Refused(gate.why))
    else if gate.Nothing? then Served(w, Done)
    else if a.ApproveReleaseRequest? then ApproveRequest(w, a.id)
    else
      var call := LedgerCall(w, a);
      if call.None? then
        var done := Finish(w, w.db, a, Node(0));
        if done.Some? then Served(done.value, Done) else Served(w, Refused(Conflict))
      else
        var o := Invoke(w.db, call.value);
        if o.reply.Err? then Served(w.(db := o.db), Refused(LedgerRefused(o.reply.error)))
        else
          var done := Finish(w, o.db, a, o.reply.value);
          if done.Some? then Served(done.value, Done) else Served(w.(db := o.db), Refused(Conflict))
  }

  /** The world if the process stops after the ledger committed and before the row is written. */
  function Interrupted(w: World, a: Action): World {
    if GateOf(w, a).Proceed? && !a.ApproveReleaseRequest? && LedgerCall(w, a).Some?
    then w.(db := Invoke(w.db, LedgerCall(w, a).value).db)
    else w
  }

  function RunActions(w: World, actions: seq<Action>): World {
    if actions == [] then w
    else Perform(RunActions(w, actions[..|actions| - 1]), actions[|actions| - 1]).world
  }
}
