/** The invariant that ties the service rows to the ledger: every held leaf belongs to
    exactly one open row of the matching kind, every open row has its leaf, and no key
    an open row may still need has been used. */
module Coupling {
  import opened InventoryTypes
  import opened ReceiptNumbers
  import opened Mass
  import opened Forest
  import opened Ledger
  import opened LedgerInvariant
  import opened ExactlyOnce
  import opened Tables
  import opened Services

  // ----- Claims ------------------------------------------------------------

  datatype ClaimKind = PledgeClaim | LienClaim | WithdrawalClaim | LoanClaim | TradeClaim

  datatype Claim = Claim(kind: ClaimKind, id: nat)

  /** What an open row says about its leaf. */
  datatype Stake = Stake(leaf: nat, quantity: int, tenant: string, unapproved: bool)

  function StatusFor(kind: ClaimKind): ReceiptStatus {
    match kind
    case PledgeClaim => HELD_PLEDGE_PENDING
    case LienClaim => HELD_LIEN
    case WithdrawalClaim => HELD_WITHDRAWAL
    case LoanClaim => HELD_LOAN
    case TradeClaim => HELD_TRADE
  }

  function KindFor(status: ReceiptStatus): ClaimKind
    requires status in HELD
  {
    if status == HELD_PLEDGE_PENDING then PledgeClaim
    else if status == HELD_LIEN then LienClaim
    else if status == HELD_WITHDRAWAL then WithdrawalClaim
    else if status == HELD_LOAN then LoanClaim
    else TradeClaim
  }

  /** The stake of a row, if the row is open. */
  function StakeOf(w: World, c: Claim): Option<Stake> {
    match c.kind
    case PledgeClaim =>
      if c.id in w.pledges && w.pledges[c.id].status.Pending? && w.pledges[c.id].held.Some?
      then Some(Stake(w.pledges[c.id].held.value, w.pledges[c.id].quantity, w.pledges[c.id].tenant, false)) else None
    case LienClaim =>
      if c.id in w.liens && Live(w.liens[c.id])
      then Some(Stake(w.liens[c.id].receipt, w.liens[c.id].remaining, w.liens[c.id].tenant, false)) else None
    case WithdrawalClaim =>
      if c.id < |w.withdrawals|
         && (w.withdrawals[c.id].status.PaidPendingApproval? || w.withdrawals[c.id].status.Approved?)
      then Some(Stake(w.withdrawals[c.id].receipt, w.withdrawals[c.id].quantity, w.withdrawals[c.id].tenant,
                      w.withdrawals[c.id].status.PaidPendingApproval?)) else None
    case LoanClaim =>
      if c.id in w.loans && (w.loans[c.id].status.Pending? || w.loans[c.id].status.Active?)
      then Some(Stake(w.loans[c.id].receipt, w.loans[c.id].quantity, w.loans[c.id].tenant,
                      w.loans[c.id].status.Pending?))
      else None
    case TradeClaim =>
      if c.id in w.trades && w.trades[c.id].status.Listed?
      then Some(Stake(w.trades[c.id].receipt, w.trades[c.id].quantity, w.trades[c.id].tenant, false)) else None
  }

  /** The leaf of an open row is held for it. */
  ghost predicate HeldFor(receipts: seq<Receipt>, c: Claim, s: Stake) {
    && s.leaf < |receipts|
    && receipts[s.leaf].status == StatusFor(c.kind)
    && receipts[s.leaf].txnId == Some(Uuid(c.id))
    && receipts[s.leaf].tenant == s.tenant
    && (s.unapproved ==> receipts[s.leaf].approval == PENDING)
  }

  /** And has its quantity. */
  ghost predicate Backs(receipts: seq<Receipt>, c: Claim, s: Stake) {
    HeldFor(receipts, c, s) && receipts[s.leaf].quantity == s.quantity
  }

  /** A held leaf names an open row of its kind, and that row names the leaf. */
  ghost predicate Claimed(w: World, i: nat)
    requires i < |w.db.receipts| && w.db.receipts[i].status in HELD
  {
    var r := w.db.receipts[i];
    && r.txnId.Some? && r.txnId.value.Uuid?
    && var s := StakeOf(w, Claim(KindFor(r.status), r.txnId.value.id));
       s.Some? && s.value.leaf == i
  }

  /** Open rows and held leaves belong together, whatever they weigh. */
  ghost predicate Joined(w: World) {
    && (forall c :: StakeOf(w, c).Some? ==> HeldFor(w.db.receipts, c, StakeOf(w, c).value))
    && (forall i: nat :: i < |w.db.receipts| && w.db.receipts[i].status in HELD ==> Claimed(w, i))
  }

  ghost predicate Coupled(w: World) {
    && (forall c :: StakeOf(w, c).Some? ==> Backs(w.db.receipts, c, StakeOf(w, c).value))
    && (forall i: nat :: i < |w.db.receipts| && w.db.receipts[i].status in HELD ==> Claimed(w, i))
  }

  lemma CoupledIsJoined(w: World)
    requires Coupled(w)
    ensures Joined(w)
  {
    hide StakeOf, Claimed, HeldFor;
    forall c | StakeOf(w, c).Some?
      ensures HeldFor(w.db.receipts, c, StakeOf(w, c).value)
    {
      assert Backs(w.db.receipts, c, StakeOf(w, c).value);
    }
  }

  /** In words: each held leaf has exactly one open row, and each open row exactly one leaf. */
  lemma CouplingIsOneToOne(w: World, i: nat, c: Claim, d: Claim)
    requires Joined(w) && i < |w.db.receipts|
    ensures w.db.receipts[i].status in HELD <==>
              exists e :: StakeOf(w, e).Some? && StakeOf(w, e).value.leaf == i
    ensures StakeOf(w, c).Some? && StakeOf(w, d).Some? && StakeOf(w, c).value.leaf == StakeOf(w, d).value.leaf
           ==> c == d
  {
    if w.db.receipts[i].status in HELD {
      assert Claimed(w, i);
    }
  }

  // ----- Keys --------------------------------------------------------------

  /** Whether a row may still use a key: it does not exist yet, or is open and has
      this step ahead of it. */
  predicate MayUse(w: World, key: Key) {
    match key
    case Part(Text(PledgeWord), Part(Text(step), Part(Uuid(id), End))) =>
      id !in w.pledges || (w.pledges[id].status.Pending? && step != CreateWord)
    case Part(Text(LienWord), Part(Text(ForceReleaseWord), Part(Uuid(id), End))) =>
      id !in w.liens || !w.liens[id].forced
    case Part(Text(ReleaseWord), Part(Text(kind), Part(Uuid(id), Part(Uuid(line), End)))) =>
      id >= |w.requests| || w.requests[id].status.Pending?
    case Part(Text(WithdrawalWord), Part(Uuid(id), Part(Text(step), End))) =>
      id >= |w.withdrawals|
      || (match w.withdrawals[id].status
          case PendingPayment => true
          case PaidPendingApproval => step != HoldWord
          case Approved => step != HoldWord && step != ApproveHoldWord
          case _ => false)
    case Part(Text(LoanWord), Part(Uuid(id), Part(Text(step), End))) =>
      id !in w.loans
      || (match w.loans[id].status
          case Pending => step != HoldWord
          case Active => step == RepayReleaseWord
          case _ => false)
    case Part(Text(TradeWord), Part(Uuid(id), Part(Text(step), rest))) =>
      id !in w.trades || (w.trades[id].status.Listed? && step != HoldWord)
    case _ => false
  }

  ghost predicate KeysAhead(w: World) {
    forall key :: MayUse(w, key) ==> !KeyUsed(w.db.events, key)
  }

  // ----- Books -------------------------------------------------------------

  /** A lien whatever its leaf weighs. */
  ghost predicate LienFits(l: Lien) {
    && (Live(l) ==> l.remaining > 0)
    && (l.status.Released? ==> l.remaining == 0)
    && (l.forced <==> l.status.ForceReleased?)
    && l.tenant == l.client.tenant
  }

  ghost predicate LiensFit(liens: map<nat, Lien>) {
    forall id :: id in liens ==> LienFits(liens[id])
  }

  ghost predicate LienSound(l: Lien, requests: seq<Request>, id: nat) {
    && LienFits(l)
    && (!l.forced ==> l.quantity == l.remaining + AskedOf(requests, RequestStatus.Approved, id))
    && (!l.forced ==> AskedOf(requests, RequestStatus.Pending, id) <= l.remaining)
  }

  ghost predicate LiensSound(liens: map<nat, Lien>, requests: seq<Request>) {
    forall id :: id in liens ==> LienSound(liens[id], requests, id)
  }

  ghost predicate LineSound(receipts: seq<Receipt>, liens: map<nat, Lien>, r: Request, line: Line) {
    && line.quantity > 0
    && line.lien in liens
    && liens[line.lien].tenant == r.tenant
    && line.receipt < |receipts|
    && receipts[line.receipt].txnId == Some(Uuid(line.lien))
  }

  ghost predicate RequestSound(receipts: seq<Receipt>, liens: map<nat, Lien>, r: Request) {
    && DistinctLiens(r.lines)
    && forall k :: 0 <= k < |r.lines| ==> LineSound(receipts, liens, r, r.lines[k])
  }

  ghost predicate RequestsSound(receipts: seq<Receipt>, liens: map<nat, Lien>, requests: seq<Request>) {
    forall i :: 0 <= i < |requests| ==> RequestSound(receipts, liens, requests[i])
  }

  ghost predicate PledgesSound(pledges: map<nat, Pledge>, liens: map<nat, Lien>) {
    && (forall id :: id in pledges && pledges[id].status.Pending? ==> pledges[id].held.Some? && id !in liens)
    && (forall id :: id in liens ==> id in pledges)
    && (forall id :: id in pledges ==> pledges[id].tenant == pledges[id].client.tenant && pledges[id].quantity > 0)
  }

  /** A withdrawal that holds nothing points at a row no hold will ever turn held. */
  ghost predicate WithdrawalFits(receipts: seq<Receipt>, wd: Withdrawal) {
    && wd.receipt < |receipts| && receipts[wd.receipt].tenant == wd.tenant
    && (wd.status.PendingPayment? || wd.status.Rejected? ==> Rank(receipts[wd.receipt].status) <= 1)
  }

  ghost predicate WithdrawalsFit(receipts: seq<Receipt>, ws: seq<Withdrawal>) {
    forall i :: 0 <= i < |ws| ==> WithdrawalFits(receipts, ws[i])
  }

  ghost predicate WithdrawalSound(receipts: seq<Receipt>, now: int, wd: Withdrawal) {
    WithdrawalFits(receipts, wd) && wd.createdAt <= now && 0 < wd.quantity <= receipts[wd.receipt].quantity
  }

  ghost predicate WithdrawalsSound(receipts: seq<Receipt>, now: int, ws: seq<Withdrawal>) {
    forall i :: 0 <= i < |ws| ==> WithdrawalSound(receipts, now, ws[i])
  }

  /** Unpaid withdrawals inside the window never ask more of a receipt than it holds,
      and no client has two of them. */
  ghost predicate WindowSound(receipts: seq<Receipt>, now: int, ws: seq<Withdrawal>) {
    && (forall x: nat {:trigger receipts[x]} :: x < |receipts| ==>
          Sum(WithdrawalQuantities(ws), ReservingIds(ws, now, receipts[x].tenant, x)) <= receipts[x].quantity)
    && (forall i, j, tenant, x ::
          0 <= i < j < |ws| && Reserving(ws[i], now, tenant, x) && Reserving(ws[j], now, tenant, x)
          ==> ws[i].client != ws[j].client)
  }

  ghost predicate Healthy(w: World) {
    && Sound(w.db)
    && Coupled(w)
    && KeysAhead(w)
    && LiensSound(w.liens, w.requests)
    && RequestsSound(w.db.receipts, w.liens, w.requests)
    && PledgesSound(w.pledges, w.liens)
    && WithdrawalsSound(w.db.receipts, w.now, w.withdrawals)
    && WindowSound(w.db.receipts, w.now, w.withdrawals)
  }

  // ----- The part that does not look at what leaves weigh -------------------

  /** A key that a pending request may already have used: its approval may have been
      refused half way. */
  predicate MayRepeat(w: World, key: Key) {
    match key
    case Part(Text(ReleaseWord), Part(Text(kind), Part(Uuid(id), Part(Uuid(line), End)))) => id < |w.requests|
    case _ => false
  }

  ghost predicate KeysFree(w: World) {
    forall key :: MayUse(w, key) && !MayRepeat(w, key) ==> !KeyUsed(w.db.events, key)
  }

  /** An event under a key of a pending line: a full release closed the lien of the line,
      and what a partial one minted is that lien's or is not held. */
  ghost predicate LineEventFits(w: World, e: nat, kind: Word, id: nat, k: nat)
    requires e < |w.db.events|
  {
    w.db.events[e].key == LineKey(kind, id, k) && id < |w.requests| && w.requests[id].status.Pending? ==>
      && k < |w.requests[id].lines|
      && (kind == FullWord ==>
            w.requests[id].lines[k].lien in w.liens && !Live(w.liens[w.requests[id].lines[k].lien]))
      && (kind == PartialWord ==>
            forall i: nat {:trigger w.db.receipts[i]} ::
              i < |w.db.receipts| && w.db.receipts[i].sourceEvent == Some(e) ==>
              w.db.receipts[i].txnId == Some(Uuid(w.requests[id].lines[k].lien)) || Rank(w.db.receipts[i].status) <= 1)
  }

  ghost predicate LineEventsFit(w: World) {
    forall e: nat, kind, id: nat, k: nat {:trigger LineEventFits(w, e, kind, id, k)} ::
      e < |w.db.events| ==> LineEventFits(w, e, kind, id, k)
  }

  /** What holds of the rows and the ledger whatever leaves weigh, and so over columns that
      round as well. */
  ghost predicate Attached(w: World) {
    && Framed(w.db)
    && Joined(w)
    && KeysFree(w)
    && LineEventsFit(w)
    && LiensFit(w.liens)
    && RequestsSound(w.db.receipts, w.liens, w.requests)
    && PledgesSound(w.pledges, w.liens)
    && WithdrawalsFit(w.db.receipts, w.withdrawals)
  }

  lemma LineKeyMayBeUsed(w: World, kind: Word, id: nat, k: nat)
    requires id < |w.requests| && w.requests[id].status.Pending?
    ensures MayUse(w, LineKey(kind, id, k))
  {
  }

  lemma HealthyWithdrawalsFit(w: World)
    requires Healthy(w)
    ensures WithdrawalsFit(w.db.receipts, w.withdrawals)
  {
    hide Sound, Coupled, KeysAhead, LiensSound, RequestsSound, PledgesSound, WindowSound;
    forall i | 0 <= i < |w.withdrawals|
      ensures WithdrawalFits(w.db.receipts, w.withdrawals[i])
    {
      assert WithdrawalSound(w.db.receipts, w.now, w.withdrawals[i]);
    }
  }

  lemma HealthyIsAttached(w: World)
    requires Healthy(w)
    ensures Attached(w)
  {
    hide Sound, Coupled, Joined, RequestsSound, PledgesSound, WindowSound, MayUse, MayRepeat, Framed, LienFits,
         WithdrawalFits;
    SoundIsFramed(w.db);
    CoupledIsJoined(w);
    forall id | id in w.liens
      ensures LienFits(w.liens[id])
    {
      assert LienSound(w.liens[id], w.requests, id);
    }
    HealthyWithdrawalsFit(w);
    forall e: nat, kind, id: nat, k: nat | e < |w.db.events|
      ensures LineEventFits(w, e, kind, id, k)
    {
      assert KeyUsed(w.db.events, w.db.events[e].key);
      if id < |w.requests| && w.requests[id].status.Pending? {
        LineKeyMayBeUsed(w, kind, id, k);
      }
    }
  }

  // ----- A ledger call with an unused key ----------------------------------

  /** The keys a call puts on file. */
  predicate Uses(call: Call, key: Key) {
    key == call.key || (call.op.TransferAndRelease? && key == WithRelease(call.key))
  }

  lemma PlanUses(db: Db, call: Call, key: Key)
    requires Plan(db, call).Ok?
    ensures Uses(call, key)
           <==> exists k :: 0 <= k < |Plan(db, call).value.events| && Plan(db, call).value.events[k].key == key
  {
    hide SplitSuffixes, Numbers, Child, Partition, KeyUsed, WithRelease;
    var events := Plan(db, call).value.events;
    if Uses(call, key) {
      assert events[0].key == key || (|events| == 2 && events[1].key == key);
    }
  }

  lemma SplitNumbersAreFree(db: Db, w: Writes)
    requires LawfulNumbers(db, w.change) && w.change.Split?
    ensures forall k, i :: 0 <= k < |NewRows(w.change)| && 0 <= i < |db.receipts|
              ==> NewRows(w.change)[k].number != db.receipts[i].number
  {
    hide ChildNumber, BaseReceiptNumber, ExistingSuffixes, NextFree, IsSuffix;
    SplitNumbersAreNew(Numbers(db.receipts), BaseReceiptNumber(db.receipts[w.change.at].number));
    forall k, i | 0 <= k < |w.change.kids| && 0 <= i < |db.receipts|
      ensures w.change.kids[k].number != db.receipts[i].number
    {
      assert Numbers(db.receipts)[i] == db.receipts[i].number;
    }
  }

  /** A planned call whose keys are unused commits its plan. */
  lemma UnusedKeyCommits(db: Db, call: Call)
    requires Sound(db) && Plan(db, call).Ok? && !call.op.Deposit?
    requires forall key :: Uses(call, key) ==> !KeyUsed(db.events, key)
    ensures Invoke(db, call) == Outcome(After(db, Plan(db, call).value), Ok(FreshReply(db, call.op)))
    ensures Sound(Invoke(db, call).db)
    ensures forall key :: KeyUsed(Invoke(db, call).db.events, key) <==> KeyUsed(db.events, key) || Uses(call, key)
  {
    hide Plan, Sound, FreshReply, Reconstruct, LawfulNumbers, KeyUsed, WithRelease;
    var w := Plan(db, call).value;
    NotDepositNotMint(db, call);
    FoundIsUsed(db.events, call.key);
    assert Uses(call, call.key);
    PlanNumbersLawfully(db, call);
    assert !Collides(db, w) by { NoCollision(db, call, w); }
    CallKeepsSound(db, call);
    forall key
      ensures KeyUsed(After(db, w).events, key) <==> KeyUsed(db.events, key) || Uses(call, key)
    {
      PlanUses(db, call, key);
      KeyUsedAppend(db.events, w.events, key);
    }
  }

  lemma SoundParts(db: Db)
    requires Sound(db)
    ensures StatusRules(db.receipts) && Conserved(NodesOf(db.receipts))
  {
  }

  lemma NotDepositNotMint(db: Db, call: Call)
    requires Plan(db, call).Ok? && !call.op.Deposit?
    ensures !Plan(db, call).value.change.Mint?
  {
    hide SplitSuffixes, Numbers, Child, Partition, KeyUsed;
  }

  lemma NoCollision(db: Db, call: Call, w: Writes)
    requires Plan(db, call) == Ok(w) && LawfulNumbers(db, w.change) && !w.change.Mint?
    requires forall key :: Uses(call, key) ==> !KeyUsed(db.events, key)
    ensures !Collides(db, w)
  {
    hide Plan, KeyUsed, LawfulNumbers, Uses;
    forall k | 0 <= k < |w.events|
      ensures !KeyUsed(db.events, w.events[k].key)
    {
      PlanUses(db, call, w.events[k].key);
    }
    if w.change.Split? {
      SplitNumbersAreFree(db, w);
    }
  }

  lemma KeyUsedAppend(events: seq<Event>, more: seq<Event>, key: Key)
    ensures KeyUsed(events + more, key) <==> KeyUsed(events, key) || exists k :: 0 <= k < |more| && more[k].key == key
  {
    var all := events + more;
    if KeyUsed(events, key) {
      var e :| 0 <= e < |events| && events[e].key == key;
      assert all[e].key == key;
    }
    if k :| 0 <= k < |more| && more[k].key == key {
      assert all[|events| + k].key == key;
    }
  }
}
