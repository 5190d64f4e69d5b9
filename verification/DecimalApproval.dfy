/** The approval of a release request over rounding columns, from any reachable state and
    for any quantities: however far its loop gets, rows and held leaves stay together. */
module DecimalApproval {
  import opened InventoryTypes
  import opened ReceiptNumbers
  import opened Ledger
  import opened LedgerInvariant
  import opened Conservation
  import ExactlyOnce
  import opened Tables
  import opened Services
  import opened Coupling
  import opened Stability
  import opened ApprovalLoop
  import opened Decimals
  import opened DecimalServices
  import opened DecimalCoupling

  // ----- What a line starts from -------------------------------------------

  /** Line `k` of a pending request, about to run on a live lien it does not exceed. */
  ghost predicate LineStarts(v: World, id: nat, k: nat) {
    && id < |v.requests| && v.requests[id].status.Pending? && k < |v.requests[id].lines|
    && LineReleasable(v, v.requests[id].lines[k])
  }

  lemma LeafAtStart(v: World, id: nat, k: nat)
    requires Attached(v) && LineStarts(v, id, k)
    ensures var line := v.requests[id].lines[k];
            && line.quantity > 0 && LienOf(v, id, k).tenant == v.requests[id].tenant
            && var c := Claim(LienClaim, line.lien);
               && StakeOf(v, c) == Some(Stake(LienOf(v, id, k).receipt, LienOf(v, id, k).remaining,
                                              v.requests[id].tenant, false))
               && HeldFor(v.db.receipts, c, StakeOf(v, c).value)
               && Present(v.db.receipts, LienOf(v, id, k).receipt, v.requests[id].tenant)
               && v.db.receipts[LienOf(v, id, k).receipt].status == HELD_LIEN
  {
    hide Framed, KeysFree, LineEventsFit, PledgesSound, WithdrawalsFit, Claimed, LiensFit;
    assert RequestSound(v.db.receipts, v.liens, v.requests[id]);
    assert LineSound(v.db.receipts, v.liens, v.requests[id], v.requests[id].lines[k]);
  }

  lemma LeafOnFile(v: World, id: nat, k: nat)
    requires Attached(v) && LineStarts(v, id, k)
    ensures v.requests[id].lines[k].quantity > 0 && LienFits(LienOf(v, id, k))
    ensures Present(v.db.receipts, LienOf(v, id, k).receipt, v.requests[id].tenant)
    ensures v.db.receipts[LienOf(v, id, k).receipt].status == HELD_LIEN
  {
    hide Framed, KeysFree, LineEventsFit, PledgesSound, WithdrawalsFit, Joined, RequestsSound, StakeOf, HeldFor,
         LienFits;
    LeafAtStart(v, id, k);
  }

  lemma LiensAttached(v: World)
    requires Attached(v)
    ensures LiensFit(v.liens) && PledgesSound(v.pledges, v.liens)
  {
    hide LiensFit, PledgesSound;
  }

  lemma FullKeyIsFree(v: World, id: nat, k: nat)
    requires LineEventsFit(v) && LineStarts(v, id, k)
    ensures !KeyUsed(v.db.events, LineKey(FullWord, id, k))
  {
    hide Rank;
    forall e: nat | e < |v.db.events|
      ensures v.db.events[e].key != LineKey(FullWord, id, k)
    {
      assert LineEventFits(v, e, FullWord, id, k);
    }
  }

  /** The lien after line `k`, whose leaf is `leaf` from now on. */
  function LienLater(lien: Lien, quantity: int, leaf: nat): Lien {
    if quantity == lien.remaining then lien.(remaining := 0, status := LienStatus.Released)
    else lien.(receipt := leaf, remaining := lien.remaining - quantity, status := PartiallyReleased)
  }

  /** What one line leaves: its lien moved on, every other row as it was. */
  ghost predicate LineLeaves(v: World, u: World, id: nat, k: nat, leaf: nat)
    requires LineStarts(v, id, k)
  {
    var line := v.requests[id].lines[k];
    && u == v.(db := u.db, liens := v.liens[line.lien := LienLater(LienOf(v, id, k), line.quantity, leaf)])
    && RowsAged(v.db.receipts, u.db.receipts)
  }

  lemma LaterLienFits(lien: Lien, quantity: int, leaf: nat)
    requires LienFits(lien) && Live(lien) && 0 < quantity <= lien.remaining
    ensures var later := LienLater(lien, quantity, leaf);
            && LienFits(later) && later.tenant == lien.tenant && later.forced == lien.forced
            && (Live(later) <==> quantity < lien.remaining)
  {
  }

  lemma LineOpensNoKeys(v: World, u: World, id: nat, k: nat, leaf: nat, key: Key)
    requires LineStarts(v, id, k) && LineLeaves(v, u, id, k, leaf) && LienFits(LienOf(v, id, k))
    requires 0 < v.requests[id].lines[k].quantity
    ensures MayUse(u, key) ==> MayUse(v, key)
    ensures MayRepeat(u, key) <==> MayRepeat(v, key)
  {
    hide RowsAged;
    LaterLienFits(LienOf(v, id, k), v.requests[id].lines[k].quantity, leaf);
    hide LienLater;
  }

  lemma LineTouchesOneClaim(v: World, u: World, id: nat, k: nat, leaf: nat)
    requires LineStarts(v, id, k) && LineLeaves(v, u, id, k, leaf)
    ensures OnlyChanged(v, u, {Claim(LienClaim, v.requests[id].lines[k].lien)})
  {
    hide RowsAged, LienLater;
  }

  lemma LiensStayFit(v: World, u: World, id: nat, k: nat, leaf: nat)
    requires LiensFit(v.liens) && PledgesSound(v.pledges, v.liens) && LineStarts(v, id, k)
            && LineLeaves(v, u, id, k, leaf)
    requires 0 < v.requests[id].lines[k].quantity
    ensures LiensFit(u.liens) && PledgesSound(u.pledges, u.liens)
    ensures forall l :: l in v.liens ==> l in u.liens && u.liens[l].tenant == v.liens[l].tenant
    ensures forall l :: l in v.liens && !Live(v.liens[l]) ==> l in u.liens && !Live(u.liens[l])
  {
    hide RowsAged, LienFits;
    var line := v.requests[id].lines[k];
    assert LienFits(v.liens[line.lien]);
    LaterLienFits(v.liens[line.lien], line.quantity, leaf);
    hide LienLater;
    forall l | l in u.liens
      ensures LienFits(u.liens[l])
    {
      assert l != line.lien ==> LienFits(v.liens[l]);
    }
  }

  /** What a line leaves attached, once rows and leaves and its own key are seen to. */
  lemma LineKeepsAttached(v: World, u: World, id: nat, k: nat, leaf: nat, spent: Key)
    requires Attached(v) && LineStarts(v, id, k) && LineLeaves(v, u, id, k, leaf)
    requires Framed(u.db) && Joined(u) && LineEventsFit(u) && MayRepeat(v, spent)
    requires forall key :: KeyUsed(u.db.events, key) ==> KeyUsed(v.db.events, key) || key == spent
    ensures Attached(u)
  {
    LeafAtStart(v, id, k);
    hide Framed, KeysFree, LineEventsFit, Joined, RequestsSound, WithdrawalsFit, PledgesSound, RowsAged, HeldFor,
         LienFits, MayUse, MayRepeat, StakeOf, KeyUsed;
    assert LienFits(LienOf(v, id, k));
    LiensStayFit(v, u, id, k, leaf);
    forall key
      ensures MayUse(u, key) ==> MayUse(v, key)
      ensures MayRepeat(u, key) <==> MayRepeat(v, key)
    {
      LineOpensNoKeys(v, u, id, k, leaf, key);
    }
    LineKeysStayFree(v, u, spent);
    RequestsAge(v.db.receipts, u.db.receipts, v.liens, u.liens, v.requests);
    WithdrawalsFitLater(v.db.receipts, u.db.receipts, v.withdrawals);
    hide LiensFit;
  }

  lemma LineKeysStayFree(v: World, u: World, spent: Key)
    requires KeysFree(v) && MayRepeat(v, spent)
    requires forall key :: KeyUsed(u.db.events, key) ==> KeyUsed(v.db.events, key) || key == spent
    requires forall key :: MayUse(u, key) ==> MayUse(v, key)
    requires forall key :: MayRepeat(u, key) <==> MayRepeat(v, key)
    ensures KeysFree(u)
  {
    hide MayUse, MayRepeat, KeyUsed;
  }

  // ----- A whole release ---------------------------------------------------

  lemma ReleasePlans(db: Db, call: Call)
    requires call.op.Release? && Present(db.receipts, call.op.receipt, call.tenant)
    requires db.receipts[call.op.receipt].status == HELD_LIEN
    ensures Plan(db, call).Ok?
    ensures Plan(db, call).value.change
         == Rewrite(call.op.receipt, db.receipts[call.op.receipt].(status := ACTIVE, approval := APPROVED))
  {
    hide SplitSuffixes, Partition, Child, KeyUsed;
  }

  /** A planned call of a line under a fresh key commits, with one event. */
  lemma FreshKeyCommits(db: Db, call: Call, g: int)
    requires g > 0 && Framed(db) && Plan(db, call).Ok? && (call.op.Release? || call.op.ReleasePartial?)
    requires !KeyUsed(db.events, call.key)
    ensures var after := StoredInvoke(db, call, g).db;
            && StoredInvoke(db, call, g).reply == Ok(FreshReply(db, call.op))
            && after.receipts == Changed(db.receipts, StoredChange(Plan(db, call).value.change, g))
            && Framed(after) && RowsAged(db.receipts, after.receipts)
            && |after.events| == |db.events| + 1 && after.events == db.events + [after.events[|db.events|]]
            && after.events[|db.events|].key == call.key
            && (forall key :: KeyUsed(after.events, key) <==> KeyUsed(db.events, key) || key == call.key)
  {
    hide Plan, StoredInvoke, KeyUsed, Framed, RowsAged, FreshReply, StoredChange;
    assert forall key :: Uses(call, key) <==> key == call.key;
    StoredUnusedKeyCommits(db, call, g);
    OneEventUnderItsKey(db, call, g);
  }

  /** A line that takes all of its lien releases the leaf. */
  lemma FullLineRuns(v: World, id: nat, k: nat, g: int)
    requires g > 0 && Attached(v) && LineStarts(v, id, k)
    requires v.requests[id].lines[k].quantity == LienOf(v, id, k).remaining
    ensures var s := StoredReleaseLine(v, id, k, v.requests[id].lines[k], LienOf(v, id, k), g);
            var at := LienOf(v, id, k).receipt;
            && s.verdict.Done? && LineLeaves(v, s.world, id, k, at) && Framed(s.world.db)
            && at < |v.db.receipts|
            && s.world.db.receipts == v.db.receipts[at := v.db.receipts[at].(status := ACTIVE, approval := APPROVED)]
            && |s.world.db.events| == |v.db.events| + 1
            && s.world.db.events == v.db.events + [s.world.db.events[|v.db.events|]]
            && s.world.db.events[|v.db.events|].key == LineKey(FullWord, id, k)
            && (forall key ::
                  KeyUsed(s.world.db.events, key) <==> KeyUsed(v.db.events, key) || key == LineKey(FullWord, id, k))
  {
    LeafAtStart(v, id, k);
    hide Attached, Plan, StoredInvoke, KeyUsed, Framed, RowsAged, StakeOf, HeldFor, FreshReply;
    var lien, call := LienOf(v, id, k), ReleaseOf(v.requests[id].tenant, LienOf(v, id, k).receipt,
                                                  LineKey(FullWord, id, k));
    AttachedLog(v);
    FullKeyIsFree(v, id, k);
    ReleasePlans(v.db, call);
    FreshKeyCommits(v.db, call, g);
  }

  lemma AttachedLog(v: World)
    requires Attached(v)
    ensures Framed(v.db) && LineEventsFit(v) && Joined(v) && KeysFree(v)
  {
    hide Framed, LineEventsFit, Joined, KeysFree;
  }

  lemma OneEventUnderItsKey(db: Db, call: Call, g: int)
    requires g > 0 && (call.op.Release? || call.op.ReleasePartial?) && Plan(db, call).Ok?
    ensures var events := StoredEvents(Plan(db, call).value.events, g);
            |events| == 1 && events[0].key == call.key
  {
    hide SplitSuffixes, Partition, Child, KeyUsed, Stored;
  }

  lemma FullLineStaysJoined(v: World, u: World, id: nat, k: nat, row: Receipt)
    requires Joined(v) && LineStarts(v, id, k) && LineLeaves(v, u, id, k, LienOf(v, id, k).receipt)
    requires v.requests[id].lines[k].quantity == LienOf(v, id, k).remaining && row.status !in HELD
    requires LienOf(v, id, k).receipt < |v.db.receipts|
    requires u.db.receipts == v.db.receipts[LienOf(v, id, k).receipt := row]
    ensures Joined(u)
  {
    LineTouchesOneClaim(v, u, id, k, LienOf(v, id, k).receipt);
    hide Joined, RowsAged, OnlyChanged;
    var line := v.requests[id].lines[k];
    LiveHasStake(v, line.lien);
    ReleasedHasNoStake(u, line.lien);
    hide StakeOf;
    JoinedAfterLettingGo(v, u, Claim(LienClaim, line.lien), row);
  }

  lemma OnlyEventOfItsLine(u: World, e: nat, word: Word, id: nat, k: nat)
    requires e < |u.db.events| && u.db.events[e].key == LineKey(word, id, k) && LineEventFits(u, e, word, id, k)
    ensures forall kind, i: nat, j: nat {:trigger LineEventFits(u, e, kind, i, j)} :: LineEventFits(u, e, kind, i, j)
  {
    forall kind, i: nat, j: nat
      ensures LineEventFits(u, e, kind, i, j)
    {
      assert LineKey(kind, i, j) == LineKey(word, id, k) ==> kind == word && i == id && j == k;
    }
  }

  /** The log after a line, when the one new event fits. */
  lemma LineEventsStayFit(v: World, u: World, id: nat, k: nat, leaf: nat, word: Word)
    requires Attached(v) && LineStarts(v, id, k) && LineLeaves(v, u, id, k, leaf)
    requires |u.db.events| == |v.db.events| + 1 && u.db.events == v.db.events + [u.db.events[|v.db.events|]]
    requires u.db.events[|v.db.events|].key == LineKey(word, id, k)
    requires LineEventFits(u, |v.db.events|, word, id, k)
    requires forall i: nat {:trigger u.db.receipts[i]} :: |v.db.receipts| <= i < |u.db.receipts| ==>
               u.db.receipts[i].sourceEvent == Some(|v.db.events|)
    ensures LineEventsFit(u)
  {
    hide Attached, LineEventsFit, PledgesSound, RowsAged, LienFits, LiensFit, LineEventFits, LienLater, KeysFree,
         Joined;
    LeafOnFile(v, id, k);
    LiensAttached(v);
    AttachedLog(v);
    LiensStayFit(v, u, id, k, leaf);
    OnlyEventOfItsLine(u, |v.db.events|, word, id, k);
    LineEventsFitWith(v, u);
  }

  lemma FullEventFits(v: World, u: World, id: nat, k: nat, e: nat)
    requires LineStarts(v, id, k) && LineLeaves(v, u, id, k, LienOf(v, id, k).receipt) && e < |u.db.events|
    requires v.requests[id].lines[k].quantity == LienOf(v, id, k).remaining
    ensures LineEventFits(u, e, FullWord, id, k)
  {
    hide RowsAged, Rank;
  }

  lemma FullLineKeepsAttached(v: World, id: nat, k: nat, g: int)
    requires g > 0 && Attached(v) && LineStarts(v, id, k)
    requires v.requests[id].lines[k].quantity == LienOf(v, id, k).remaining
    ensures Attached(StoredReleaseLine(v, id, k, v.requests[id].lines[k], LienOf(v, id, k), g).world)
  {
    hide Attached, StoredReleaseLine, Framed, LineEventsFit, Joined, KeysFree, RowsAged, HeldFor, MayUse, MayRepeat,
         KeyUsed, LiensFit, PledgesSound, RequestsSound, WithdrawalsFit, StakeOf, LineEventFits, LienLater;
    var lien := LienOf(v, id, k);
    var u := StoredReleaseLine(v, id, k, v.requests[id].lines[k], lien, g).world;
    FullLineRuns(v, id, k, g);
    AttachedLog(v);
    FullLineStaysJoined(v, u, id, k, v.db.receipts[lien.receipt].(status := ACTIVE, approval := APPROVED));
    FullEventFits(v, u, id, k, |v.db.events|);
    LineEventsStayFit(v, u, id, k, lien.receipt, FullWord);
    LineKeyMayRepeat(v, FullWord, id, k);
    LineKeepsAttached(v, u, id, k, lien.receipt, LineKey(FullWord, id, k));
  }

  lemma LineKeyMayRepeat(v: World, kind: Word, id: nat, k: nat)
    requires id < |v.requests|
    ensures MayRepeat(v, LineKey(kind, id, k))
  {
  }

  // ----- A partial release under a fresh key -------------------------------

  /** The receipt table before and after: the leaf is split into a part that is available and a
      part still held for the same lien, which gets what the column keeps of the rest. */
  ghost predicate PartRows(before: seq<Receipt>, after: seq<Receipt>, at: nat, quantity: int, e: nat, g: int)
    requires g > 0
  {
    && at < |before| && |after| == |before| + 2
    && after == before[at := Superseded(before[at])] + [after[|before|], after[|before| + 1]]
    && after[|before|].status == ACTIVE && after[|before|].sourceEvent == Some(e)
    && var held := after[|before| + 1];
       && held.status == HELD_LIEN && held.txnId == before[at].txnId && held.tenant == before[at].tenant
       && held.quantity == Stored(before[at].quantity - quantity, g) && held.sourceEvent == Some(e)
  }

  function PartOf(v: World, id: nat, k: nat): Call
    requires LineStartsOn(v, id, k)
  {
    Call(v.requests[id].tenant, LineKey(PartialWord, id, k),
         ReleasePartial(LienOf(v, id, k).receipt, v.requests[id].lines[k].quantity, Uuid(id)))
  }

  predicate LineStartsOn(v: World, id: nat, k: nat) {
    id < |v.requests| && k < |v.requests[id].lines| && v.requests[id].lines[k].lien in v.liens
  }

  lemma PartStores(db: Db, call: Call, g: int)
    requires g > 0 && call.op.ReleasePartial? && Present(db.receipts, call.op.receipt, call.tenant)
    requires db.receipts[call.op.receipt].status == HELD_LIEN
            && 0 < call.op.quantity < db.receipts[call.op.receipt].quantity
    ensures Plan(db, call).Ok?
    ensures PartRows(db.receipts, Changed(db.receipts, StoredChange(Plan(db, call).value.change, g)), call.op.receipt,
                     call.op.quantity, |db.events|, g)
    ensures FreshReply(db, call.op) == PartialReply(Some(|db.receipts|), Some(|db.receipts| + 1))
  {
    hide SplitSuffixes, ChildNumber, BaseReceiptNumber, KeyUsed, Stored;
  }

  lemma PartCommits(v: World, id: nat, k: nat, g: int)
    requires g > 0 && Attached(v) && LineStarts(v, id, k) && !KeyUsed(v.db.events, LineKey(PartialWord, id, k))
    requires LienOf(v, id, k).receipt < |v.db.receipts|
    requires v.requests[id].lines[k].quantity < v.db.receipts[LienOf(v, id, k).receipt].quantity
    ensures var call, n := PartOf(v, id, k), |v.db.receipts|;
            var o := StoredInvoke(v.db, call, g);
            && o.reply == Ok(PartialReply(Some(n), Some(n + 1)))
            && PartRows(v.db.receipts, o.db.receipts, call.op.receipt, call.op.quantity, |v.db.events|, g)
            && Framed(o.db) && RowsAged(v.db.receipts, o.db.receipts)
            && |o.db.events| == |v.db.events| + 1 && o.db.events == v.db.events + [o.db.events[|v.db.events|]]
            && o.db.events[|v.db.events|].key == call.key
            && (forall key :: KeyUsed(o.db.events, key) <==> KeyUsed(v.db.events, key) || key == call.key)
  {
    hide Attached, Plan, StoredInvoke, KeyUsed, Framed, RowsAged, FreshReply, PartRows, StoredChange, LienFits,
         LineEventsFit, KeysFree, Joined;
    LeafOnFile(v, id, k);
    var call := PartOf(v, id, k);
    AttachedLog(v);
    PartStores(v.db, call, g);
    FreshKeyCommits(v.db, call, g);
  }

  lemma PartLineRuns(v: World, id: nat, k: nat, g: int)
    requires g > 0 && Attached(v) && LineStarts(v, id, k) && !KeyUsed(v.db.events, LineKey(PartialWord, id, k))
    requires LienOf(v, id, k).receipt < |v.db.receipts|
    requires v.requests[id].lines[k].quantity != LienOf(v, id, k).remaining
    requires v.requests[id].lines[k].quantity < v.db.receipts[LienOf(v, id, k).receipt].quantity
    ensures var s := StoredReleaseLine(v, id, k, v.requests[id].lines[k], LienOf(v, id, k), g);
            && s.verdict.Done? && s.world.db == StoredInvoke(v.db, PartOf(v, id, k), g).db
            && LineLeaves(v, s.world, id, k, |v.db.receipts| + 1)
  {
    hide Attached, StoredInvoke, KeyUsed, Framed, RowsAged, PartRows;
    PartCommits(v, id, k, g);
  }

  lemma PartStaysJoined(v: World, u: World, id: nat, k: nat, e: nat, g: int)
    requires g > 0 && Attached(v) && LineStarts(v, id, k) && LineLeaves(v, u, id, k, |v.db.receipts| + 1)
    requires v.requests[id].lines[k].quantity != LienOf(v, id, k).remaining
    requires PartRows(v.db.receipts, u.db.receipts, LienOf(v, id, k).receipt, v.requests[id].lines[k].quantity, e, g)
    ensures Joined(u)
  {
    LeafAtStart(v, id, k);
    LineTouchesOneClaim(v, u, id, k, |v.db.receipts| + 1);
    AttachedLog(v);
    hide Attached, Joined, RowsAged, OnlyChanged, Framed, LineEventsFit, KeysFree;
    var c, n := Claim(LienClaim, v.requests[id].lines[k].lien), |v.db.receipts|;
    assert StakeOf(u, c).Some? && HeldFor(u.db.receipts, c, StakeOf(u, c).value);
    hide StakeOf, HeldFor;
    JoinedAfterPartial(v, u, c, [u.db.receipts[n], u.db.receipts[n + 1]]);
  }

  lemma PartEventFits(v: World, u: World, id: nat, k: nat, g: int)
    requires g > 0 && Attached(v) && LineStarts(v, id, k) && LineLeaves(v, u, id, k, |v.db.receipts| + 1)
    requires PartRows(v.db.receipts, u.db.receipts, LienOf(v, id, k).receipt, v.requests[id].lines[k].quantity,
                      |v.db.events|, g)
    requires |v.db.events| < |u.db.events|
    ensures LineEventFits(u, |v.db.events|, PartialWord, id, k)
  {
    LeafAtStart(v, id, k);
    AttachedLog(v);
    hide Attached, Joined, RowsAged, Lineage, StatusRules, LineEventsFit, KeysFree, LienLater, Stored;
    NoRowNamesALaterEvent(v.db);
  }

  lemma NoRowNamesALaterEvent(db: Db)
    requires Framed(db)
    ensures forall i: nat :: i < |db.receipts| ==> db.receipts[i].sourceEvent != Some(|db.events|)
  {
    hide Lineage, StatusRules;
    forall i: nat | i < |db.receipts|
      ensures db.receipts[i].sourceEvent != Some(|db.events|)
    {
      assert SourcedAt(db, i);
    }
  }

  lemma PartLineKeepsAttached(v: World, id: nat, k: nat, g: int)
    requires g > 0 && Attached(v) && LineStarts(v, id, k) && !KeyUsed(v.db.events, LineKey(PartialWord, id, k))
    requires LienOf(v, id, k).receipt < |v.db.receipts|
    requires v.requests[id].lines[k].quantity != LienOf(v, id, k).remaining
    requires v.requests[id].lines[k].quantity < v.db.receipts[LienOf(v, id, k).receipt].quantity
    ensures Attached(StoredReleaseLine(v, id, k, v.requests[id].lines[k], LienOf(v, id, k), g).world)
  {
    hide Attached, StoredReleaseLine, Framed, RowsAged, KeyUsed, MayRepeat, LineEventFits, LienLater, PartRows,
         StoredInvoke;
    var u := StoredReleaseLine(v, id, k, v.requests[id].lines[k], LienOf(v, id, k), g).world;
    PartCommits(v, id, k, g);
    PartLineRuns(v, id, k, g);
    PartStaysJoined(v, u, id, k, |v.db.events|, g);
    PartEventFits(v, u, id, k, g);
    PartRowsAreNew(v, u, id, k, g);
    LineEventsStayFit(v, u, id, k, |v.db.receipts| + 1, PartialWord);
    LineKeyMayRepeat(v, PartialWord, id, k);
    LineKeepsAttached(v, u, id, k, |v.db.receipts| + 1, LineKey(PartialWord, id, k));
  }

  lemma PartRowsAreNew(v: World, u: World, id: nat, k: nat, g: int)
    requires g > 0 && LineStarts(v, id, k)
    requires PartRows(v.db.receipts, u.db.receipts, LienOf(v, id, k).receipt, v.requests[id].lines[k].quantity,
                      |v.db.events|, g)
    ensures forall i: nat {:trigger u.db.receipts[i]} :: |v.db.receipts| <= i < |u.db.receipts| ==>
               u.db.receipts[i].sourceEvent == Some(|v.db.events|)
  {
  }

  /** What the leaf does not cover, the ledger refuses, and nothing happens. */
  lemma UncoveredLineIsRefused(v: World, id: nat, k: nat, g: int)
    requires g > 0 && Attached(v) && LineStarts(v, id, k) && !KeyUsed(v.db.events, LineKey(PartialWord, id, k))
    requires LienOf(v, id, k).receipt < |v.db.receipts|
    requires v.requests[id].lines[k].quantity != LienOf(v, id, k).remaining
    requires v.requests[id].lines[k].quantity >= v.db.receipts[LienOf(v, id, k).receipt].quantity
    ensures StoredReleaseLine(v, id, k, v.requests[id].lines[k], LienOf(v, id, k), g)
         == Served(v, Refused(LedgerRefused(InsufficientQuantity)))
  {
    LeafAtStart(v, id, k);
    hide Attached, StoredInvoke, KeyUsed, Framed, RowsAged, StakeOf, HeldFor, FindEvent;
    var call := PartOf(v, id, k);
    ExactlyOnce.FoundIsUsed(v.db.events, call.key);
    TooMuchIsRefused(v.db, call);
    UnplannedIsRefused(v.db, call, g);
  }

  lemma TooMuchIsRefused(db: Db, call: Call)
    requires call.op.ReleasePartial? && Present(db.receipts, call.op.receipt, call.tenant)
    requires db.receipts[call.op.receipt].status == HELD_LIEN
            && call.op.quantity >= db.receipts[call.op.receipt].quantity
    ensures Plan(db, call) == Err(InsufficientQuantity)
  {
    hide SplitSuffixes, Child, KeyUsed;
  }

  // ----- A partial release whose key is on file already --------------------

  /** An approval that was refused half way left keys behind, and the next one answers its
      first lines from the log: the ledger stays, and the lien is taken from again. */
  lemma ReplayedLine(v: World, id: nat, k: nat, g: int)
    requires g > 0 && Attached(v) && LineStarts(v, id, k) && KeyUsed(v.db.events, LineKey(PartialWord, id, k))
    requires v.requests[id].lines[k].quantity != LienOf(v, id, k).remaining
    ensures var s := StoredReleaseLine(v, id, k, v.requests[id].lines[k], LienOf(v, id, k), g);
            && s.world.db == v.db
            && (if s.verdict.Done? then LineLeaves(v, s.world, id, k, LienOf(v, id, k).receipt)
                else s == Served(v, Refused(NotFound)))
  {
    hide Attached, KeyUsed, RowsAged, FindEvent, FindKid, StoredInvoke;
    var call := PartOf(v, id, k);
    ExactlyOnce.FoundIsUsed(v.db.events, call.key);
    RowsStay(v.db.receipts);
    var e := FindEvent(v.db.events, call.key).value;
    var kid := FindKid(v.db.receipts, e, {HELD_LIEN});
    UsedKeyRepliesFromTheLog(v.db, call, g);
    if kid.Some? {
      MintedLeafIsTheLiens(v, id, k, e, kid.value);
    }
  }

  lemma UsedKeyRepliesFromTheLog(db: Db, call: Call, g: int)
    requires g > 0 && call.op.ReleasePartial? && FindEvent(db.events, call.key).Some?
    ensures StoredInvoke(db, call, g).db == db && StoredInvoke(db, call, g).reply.Ok?
    ensures var e := FindEvent(db.events, call.key).value;
            && StoredInvoke(db, call, g).reply.value.PartialReply?
            && StoredInvoke(db, call, g).reply.value.remainingHeld == FindKid(db.receipts, e, {HELD_LIEN})
  {
    hide FindEvent, FindKid, StoredTransact;
  }

  lemma MintedLeafIsTheLiens(v: World, id: nat, k: nat, e: nat, i: nat)
    requires Attached(v) && LineStarts(v, id, k) && e < |v.db.events|
            && v.db.events[e].key == LineKey(PartialWord, id, k)
    requires i < |v.db.receipts| && v.db.receipts[i].sourceEvent == Some(e) && v.db.receipts[i].status == HELD_LIEN
    ensures i == LienOf(v, id, k).receipt
  {
    hide Framed, KeysFree, LiensFit, RequestsSound, PledgesSound, WithdrawalsFit;
    assert LineEventFits(v, e, PartialWord, id, k);
    assert Claimed(v, i);
  }

  lemma ReplayedLineKeepsAttached(v: World, id: nat, k: nat, g: int)
    requires g > 0 && Attached(v) && LineStarts(v, id, k) && KeyUsed(v.db.events, LineKey(PartialWord, id, k))
    requires v.requests[id].lines[k].quantity != LienOf(v, id, k).remaining
    ensures Attached(StoredReleaseLine(v, id, k, v.requests[id].lines[k], LienOf(v, id, k), g).world)
  {
    hide Attached, StoredReleaseLine, Framed, RowsAged, KeyUsed, MayRepeat, LineEventFits;
    ReplayedLine(v, id, k, g);
    var s := StoredReleaseLine(v, id, k, v.requests[id].lines[k], LienOf(v, id, k), g);
    if s.verdict.Done? {
      var u := s.world;
      AttachedLog(v);
      ReplayStaysJoined(v, u, id, k);
      ReplayEventsStayFit(v, u, id, k);
      LineKeyMayRepeat(v, PartialWord, id, k);
      LineKeepsAttached(v, u, id, k, LienOf(v, id, k).receipt, LineKey(PartialWord, id, k));
    }
  }

  lemma ReplayStaysJoined(v: World, u: World, id: nat, k: nat)
    requires Attached(v) && LineStarts(v, id, k) && LineLeaves(v, u, id, k, LienOf(v, id, k).receipt) && u.db == v.db
    requires v.requests[id].lines[k].quantity != LienOf(v, id, k).remaining
    ensures Joined(u)
  {
    LeafAtStart(v, id, k);
    LineTouchesOneClaim(v, u, id, k, LienOf(v, id, k).receipt);
    AttachedLog(v);
    hide Attached, Joined, RowsAged, OnlyChanged, Framed, LineEventsFit, KeysFree;
    var c := Claim(LienClaim, v.requests[id].lines[k].lien);
    assert StakeOf(u, c).Some? && HeldFor(u.db.receipts, c, StakeOf(u, c).value);
    hide StakeOf, HeldFor;
    assert u.db.receipts == v.db.receipts[LienOf(v, id, k).receipt := u.db.receipts[LienOf(v, id, k).receipt]];
    JoinedAfterRewriting(v, u, c, c, u.db.receipts[LienOf(v, id, k).receipt]);
  }

  lemma ReplayEventsStayFit(v: World, u: World, id: nat, k: nat)
    requires Attached(v) && LineStarts(v, id, k) && LineLeaves(v, u, id, k, LienOf(v, id, k).receipt) && u.db == v.db
    ensures LineEventsFit(u)
  {
    LeafAtStart(v, id, k);
    hide Framed, KeysFree, LineEventsFit, Joined, RequestsSound, WithdrawalsFit, PledgesSound, RowsAged, HeldFor,
         LienFits, StakeOf;
    assert LienFits(LienOf(v, id, k));
    LiensStayFit(v, u, id, k, LienOf(v, id, k).receipt);
    hide LineLeaves, LiensFit;
    LineEventsFitWith(v, u);
  }

  // ----- Any line ----------------------------------------------------------

  /** By how much the leaf a partial release leaves weighs more than what was left of the old
      one: the rest rounds against the part. */
  function Kept(q: int, g: int): int
    requires g > 0
  {
    q - Stored(q, g) + (if IsHalf(q, g) then g else 0)
  }

  /** What a line of the loop adds to the difference between the leaf of lien `l` and what its
      row shows as remaining. */
  function LineDrift(v: World, id: nat, k: nat, line: Line, lien: Lien, g: int, l: nat): int
    requires g > 0 && id < |v.requests|
  {
    if line.lien != l || line.quantity == lien.remaining || !StoredReleaseLine(v, id, k, line, lien, g).verdict.Done?
      then 0
    else if KeyUsed(v.db.events, LineKey(PartialWord, id, k)) then line.quantity
    else Kept(line.quantity, g)
  }

  /** What is between the leaf of lien `l` and its row. */
  ghost predicate Weighs(w: World, l: nat, drift: int) {
    if l !in w.liens then drift == 0
    else Live(w.liens[l]) ==>
      w.liens[l].receipt < |w.db.receipts| && w.db.receipts[w.liens[l].receipt].quantity == w.liens[l].remaining + drift
  }

  /** What a line leaves, carried out or refused. */
  ghost predicate LineEnds(v: World, s: Served, id: nat, k: nat)
    requires LineStarts(v, id, k)
  {
    if s.verdict.Done? then
      && v.requests[id].lines[k].lien in s.world.liens
      && LineLeaves(v, s.world, id, k, s.world.liens[v.requests[id].lines[k].lien].receipt)
    else s.world == v
  }

  lemma LeafNamed(v: World, u: World, id: nat, k: nat, leaf: nat)
    requires LineStarts(v, id, k) && LineLeaves(v, u, id, k, leaf)
    ensures v.requests[id].lines[k].lien in u.liens
    ensures LineLeaves(v, u, id, k, u.liens[v.requests[id].lines[k].lien].receipt)
  {
    hide RowsAged;
  }

  lemma FullLineEnds(v: World, id: nat, k: nat, g: int)
    requires g > 0 && Attached(v) && LineStarts(v, id, k)
    requires v.requests[id].lines[k].quantity == LienOf(v, id, k).remaining
    ensures var s := StoredReleaseLine(v, id, k, v.requests[id].lines[k], LienOf(v, id, k), g);
            Attached(s.world) && LineEnds(v, s, id, k)
  {
    hide Attached, StoredReleaseLine, LineLeaves, Framed, KeyUsed;
    FullLineRuns(v, id, k, g);
    FullLineKeepsAttached(v, id, k, g);
    LeafNamed(v, StoredReleaseLine(v, id, k, v.requests[id].lines[k], LienOf(v, id, k), g).world, id, k,
              LienOf(v, id, k).receipt);
  }

  lemma ReplayedLineEnds(v: World, id: nat, k: nat, g: int)
    requires g > 0 && Attached(v) && LineStarts(v, id, k) && KeyUsed(v.db.events, LineKey(PartialWord, id, k))
    requires v.requests[id].lines[k].quantity != LienOf(v, id, k).remaining
    ensures var s := StoredReleaseLine(v, id, k, v.requests[id].lines[k], LienOf(v, id, k), g);
            Attached(s.world) && LineEnds(v, s, id, k)
  {
    hide Attached, StoredReleaseLine, LineLeaves, KeyUsed;
    ReplayedLine(v, id, k, g);
    ReplayedLineKeepsAttached(v, id, k, g);
    var s := StoredReleaseLine(v, id, k, v.requests[id].lines[k], LienOf(v, id, k), g);
    if s.verdict.Done? {
      LeafNamed(v, s.world, id, k, LienOf(v, id, k).receipt);
    }
  }

  lemma FreshPartEnds(v: World, id: nat, k: nat, g: int)
    requires g > 0 && Attached(v) && LineStarts(v, id, k) && !KeyUsed(v.db.events, LineKey(PartialWord, id, k))
    requires v.requests[id].lines[k].quantity != LienOf(v, id, k).remaining
    ensures var s := StoredReleaseLine(v, id, k, v.requests[id].lines[k], LienOf(v, id, k), g);
            Attached(s.world) && LineEnds(v, s, id, k)
  {
    hide Attached, StoredReleaseLine, LineLeaves, KeyUsed, StoredInvoke;
    LeafOnFile(v, id, k);
    if v.requests[id].lines[k].quantity < v.db.receipts[LienOf(v, id, k).receipt].quantity {
      PartLineRuns(v, id, k, g);
      PartLineKeepsAttached(v, id, k, g);
      LeafNamed(v, StoredReleaseLine(v, id, k, v.requests[id].lines[k], LienOf(v, id, k), g).world, id, k,
                |v.db.receipts| + 1);
    } else {
      UncoveredLineIsRefused(v, id, k, g);
    }
  }

  /** A line keeps rows and leaves together, whatever they weigh and whether it goes through. */
  lemma LineEndsAttached(v: World, id: nat, k: nat, g: int)
    requires g > 0 && Attached(v) && LineStarts(v, id, k)
    ensures var s := StoredReleaseLine(v, id, k, v.requests[id].lines[k], LienOf(v, id, k), g);
            Attached(s.world) && LineEnds(v, s, id, k)
  {
    hide Attached, StoredReleaseLine, KeyUsed, LineEnds;
    if v.requests[id].lines[k].quantity == LienOf(v, id, k).remaining {
      FullLineEnds(v, id, k, g);
    } else if KeyUsed(v.db.events, LineKey(PartialWord, id, k)) {
      ReplayedLineEnds(v, id, k, g);
    } else {
      FreshPartEnds(v, id, k, g);
    }
  }

  lemma FullLineDrifts(v: World, id: nat, k: nat, g: int, drift: int)
    requires g > 0 && Attached(v) && LineStarts(v, id, k)
    requires v.requests[id].lines[k].quantity == LienOf(v, id, k).remaining
    ensures Weighs(StoredReleaseLine(v, id, k, v.requests[id].lines[k], LienOf(v, id, k), g).world,
                   v.requests[id].lines[k].lien, drift)
  {
    hide Attached, StoredReleaseLine, KeyUsed, Framed, RowsAged;
    FullLineRuns(v, id, k, g);
  }

  lemma FreshPartDrifts(v: World, id: nat, k: nat, g: int, drift: int)
    requires g > 0 && Attached(v) && LineStarts(v, id, k) && !KeyUsed(v.db.events, LineKey(PartialWord, id, k))
    requires v.requests[id].lines[k].quantity != LienOf(v, id, k).remaining && WholeRows(v.db.receipts, g)
    requires Weighs(v, v.requests[id].lines[k].lien, drift)
    ensures var s := StoredReleaseLine(v, id, k, v.requests[id].lines[k], LienOf(v, id, k), g);
            Weighs(s.world, v.requests[id].lines[k].lien,
                   drift + if s.verdict.Done? then Kept(v.requests[id].lines[k].quantity, g) else 0)
  {
    hide Attached, StoredReleaseLine, KeyUsed, Framed, Kept, StoredInvoke, PartRows, RowsAged;
    LeafOnFile(v, id, k);
    var line, lien := v.requests[id].lines[k], LienOf(v, id, k);
    if line.quantity < v.db.receipts[lien.receipt].quantity {
      PartLineRuns(v, id, k, g);
      PartCommits(v, id, k, g);
      PartWeighs(v.db.receipts, StoredReleaseLine(v, id, k, line, lien, g).world.db.receipts, lien.receipt,
                 line.quantity, |v.db.events|, g);
    } else {
      UncoveredLineIsRefused(v, id, k, g);
    }
  }

  lemma ReplayedLineDrifts(v: World, id: nat, k: nat, g: int, drift: int)
    requires g > 0 && Attached(v) && LineStarts(v, id, k) && KeyUsed(v.db.events, LineKey(PartialWord, id, k))
    requires v.requests[id].lines[k].quantity != LienOf(v, id, k).remaining
    requires Weighs(v, v.requests[id].lines[k].lien, drift)
    ensures var s := StoredReleaseLine(v, id, k, v.requests[id].lines[k], LienOf(v, id, k), g);
            Weighs(s.world, v.requests[id].lines[k].lien,
                   drift + if s.verdict.Done? then v.requests[id].lines[k].quantity else 0)
  {
    hide Attached, StoredReleaseLine, KeyUsed, RowsAged;
    ReplayedLine(v, id, k, g);
  }

  /** And moves the difference between the leaf of each lien and its row by the line's drift. */
  lemma LineDrifts(v: World, id: nat, k: nat, g: int, l: nat, drift: int)
    requires g > 0 && Attached(v) && LineStarts(v, id, k) && WholeRows(v.db.receipts, g) && Weighs(v, l, drift)
    ensures var line, lien := v.requests[id].lines[k], LienOf(v, id, k);
            Weighs(StoredReleaseLine(v, id, k, line, lien, g).world, l, drift + LineDrift(v, id, k, line, lien, g, l))
  {
    hide Attached, StoredReleaseLine, KeyUsed, Kept, LineEnds, Weighs, WholeRows;
    var line, lien := v.requests[id].lines[k], LienOf(v, id, k);
    if line.lien != l {
      LineEndsAttached(v, id, k, g);
      OtherLienStays(v, id, k, l, drift, StoredReleaseLine(v, id, k, line, lien, g));
    } else if line.quantity == lien.remaining {
      FullLineDrifts(v, id, k, g, drift);
    } else if KeyUsed(v.db.events, LineKey(PartialWord, id, k)) {
      ReplayedLineDrifts(v, id, k, g, drift);
    } else {
      FreshPartDrifts(v, id, k, g, drift);
    }
  }

  lemma PartWeighs(before: seq<Receipt>, after: seq<Receipt>, at: nat, quantity: int, e: nat, g: int)
    requires g > 0 && WholeRows(before, g) && PartRows(before, after, at, quantity, e, g)
            && 0 < quantity < before[at].quantity
    ensures |before| + 1 < |after|
    ensures after[|before| + 1].quantity == before[at].quantity - quantity + Kept(quantity, g)
  {
    hide Stored, IsHalf;
    SplitStores(before[at].quantity, quantity, g);
  }

  lemma OtherLienStays(v: World, id: nat, k: nat, l: nat, drift: int, s: Served)
    requires LineStarts(v, id, k) && LineEnds(v, s, id, k)
    requires v.requests[id].lines[k].lien != l && Weighs(v, l, drift)
    ensures Weighs(s.world, l, drift)
  {
    hide LienLater, Rank;
    if s.verdict.Done? && l in v.liens && Live(v.liens[l]) {
      assert Ages(v.db.receipts[v.liens[l].receipt], s.world.db.receipts[s.world.liens[l].receipt]);
    }
  }

  lemma LineKeepsRounded(v: World, id: nat, k: nat, line: Line, lien: Lien, g: int)
    requires g > 0 && id < |v.requests| && Rounded(v.db.receipts, g)
    ensures Rounded(StoredReleaseLine(v, id, k, line, lien, g).world.db.receipts, g)
  {
    hide StoredInvoke, Rounded;
    var tenant := v.requests[id].tenant;
    CallStaysRounded(v.db, ReleaseOf(tenant, lien.receipt, LineKey(FullWord, id, k)), g);
    CallStaysRounded(v.db, Call(tenant, LineKey(PartialWord, id, k),
                                ReleasePartial(lien.receipt, line.quantity, Uuid(id))), g);
  }

  lemma CallStaysRounded(db: Db, call: Call, g: int)
    requires g > 0 && Rounded(db.receipts, g)
    ensures Rounded(StoredInvoke(db, call, g).db.receipts, g)
  {
    hide StoredInvoke, Rounded, HalfSplit, LeafShare, KidShare, RootQuantity, ParentQuantity;
    CallGains(db, call, g, 0);
  }

  // ----- The loop ----------------------------------------------------------

  /** What the first `n` lines of a loop add to the difference. */
  function LinesDrift(w: World, id: nat, n: nat, g: int, l: nat): int
    requires g > 0 && id < |w.requests| && n <= |w.requests[id].lines|
    requires forall k :: 0 <= k < |w.requests[id].lines| ==> w.requests[id].lines[k].lien in w.liens
  {
    if n == 0 then 0
    else
      var before, line := StoredReleaseLines(w, w.liens, id, n - 1, g), w.requests[id].lines[n - 1];
      LinesDrift(w, id, n - 1, g, l)
      + (if before.verdict.Done? then LineDrift(before.world, id, n - 1, line, w.liens[line.lien], g, l) else 0)
  }

  /** The state in the middle of the loop. */
  ghost predicate MidLoop(w: World, s: Served, id: nat, n: nat, g: int)
    requires g > 0
  {
    var v := s.world;
    && Attached(v) && Rounded(v.db.receipts, g) && RowsAged(w.db.receipts, v.db.receipts)
    && v == w.(db := v.db, liens := v.liens)
    && id < |w.requests| && w.requests[id].status.Pending? && n <= |w.requests[id].lines|
    && (s.verdict.Done? ==> LaterLinesStart(w, v, id, n))
  }

  ghost predicate LaterLinesStart(w: World, v: World, id: nat, n: nat)
    requires id < |w.requests| && v.requests == w.requests
  {
    forall k: nat {:trigger LineStarts(v, id, k)} :: n <= k < |w.requests[id].lines| ==>
      && LineStarts(v, id, k) && w.requests[id].lines[k].lien in w.liens
      && v.liens[w.requests[id].lines[k].lien] == w.liens[w.requests[id].lines[k].lien]
  }

  lemma NextLineEnds(w: World, s: Served, id: nat, n: nat, g: int)
    requires g > 0 && MidLoop(w, s, id, n, g) && s.verdict.Done? && n < |w.requests[id].lines|
            && DistinctLiens(w.requests[id].lines)
    ensures w.requests[id].lines[n].lien in w.liens
    ensures var line := w.requests[id].lines[n];
            MidLoop(w, StoredReleaseLine(s.world, id, n, line, w.liens[line.lien], g), id, n + 1, g)
  {
    hide Attached, StoredReleaseLine, Rounded, RowsAged;
    var v := s.world;
    assert LineStarts(v, id, n);
    LineEndsAttached(v, id, n, g);
    LineKeepsRounded(v, id, n, w.requests[id].lines[n], LienOf(v, id, n), g);
    var t := StoredReleaseLine(v, id, n, w.requests[id].lines[n], LienOf(v, id, n), g);
    if t.verdict.Done? {
      AgedTwice(w.db.receipts, v.db.receipts, t.world.db.receipts);
      LaterLinesStillStart(w, v, t, id, n);
    }
  }

  lemma LaterLinesStillStart(w: World, v: World, t: Served, id: nat, n: nat)
    requires id < |w.requests| && v.requests == w.requests && n < |w.requests[id].lines|
            && DistinctLiens(w.requests[id].lines)
    requires LaterLinesStart(w, v, id, n) && LineStarts(v, id, n) && LineEnds(v, t, id, n) && t.verdict.Done?
    ensures LaterLinesStart(w, t.world, id, n + 1)
  {
    hide RowsAged, LienLater;
    forall k: nat | n + 1 <= k < |w.requests[id].lines|
      ensures LineStarts(t.world, id, k) && w.requests[id].lines[k].lien in w.liens
      ensures t.world.liens[w.requests[id].lines[k].lien] == w.liens[w.requests[id].lines[k].lien]
    {
      assert LineStarts(v, id, k);
    }
  }

  lemma {:induction false} LinesKeepAttached(w: World, id: nat, n: nat, g: int, l: nat, drift: int)
    requires g > 0 && Attached(w) && Rounded(w.db.receipts, g) && Weighs(w, l, drift)
    requires id < |w.requests| && w.requests[id].status.Pending? && Releasable(w, w.requests[id].lines)
    requires n <= |w.requests[id].lines|
    requires forall k :: 0 <= k < |w.requests[id].lines| ==> w.requests[id].lines[k].lien in w.liens
    ensures var s := StoredReleaseLines(w, w.liens, id, n, g);
            MidLoop(w, s, id, n, g) && Weighs(s.world, l, drift + LinesDrift(w, id, n, g, l))
  {
    hide Attached, StoredReleaseLine, Rounded, RowsAged, Weighs, LineDrift, MidLoop;
    LinesAreDistinct(w, id);
    if n == 0 {
      LoopStarts(w, id, g);
    } else {
      LinesKeepAttached(w, id, n - 1, g, l, drift);
      var before := StoredReleaseLines(w, w.liens, id, n - 1, g);
      if before.verdict.Done? {
        NextLineEnds(w, before, id, n - 1, g);
        NextLineDrifts(w, before, id, n - 1, g, l, drift + LinesDrift(w, id, n - 1, g, l));
      } else {
        RefusedLoopStays(w, before, id, n - 1, g);
      }
    }
  }

  lemma LinesAreDistinct(w: World, id: nat)
    requires Attached(w) && id < |w.requests|
    ensures DistinctLiens(w.requests[id].lines)
  {
    hide Framed, Joined, KeysFree, LineEventsFit, LiensFit, PledgesSound, WithdrawalsFit;
    assert RequestSound(w.db.receipts, w.liens, w.requests[id]);
  }

  lemma LoopStarts(w: World, id: nat, g: int)
    requires g > 0 && Attached(w) && Rounded(w.db.receipts, g)
    requires id < |w.requests| && w.requests[id].status.Pending? && Releasable(w, w.requests[id].lines)
    ensures MidLoop(w, Served(w, Done), id, 0, g)
  {
    hide Attached, Rounded;
    RowsStay(w.db.receipts);
    hide RowsAged;
    forall k: nat | k < |w.requests[id].lines|
      ensures LineStarts(w, id, k) && w.requests[id].lines[k].lien in w.liens
    {
      assert LineReleasable(w, w.requests[id].lines[k]);
    }
  }

  lemma RefusedLoopStays(w: World, s: Served, id: nat, n: nat, g: int)
    requires g > 0 && MidLoop(w, s, id, n, g) && s.verdict.Refused? && n < |w.requests[id].lines|
    ensures MidLoop(w, s, id, n + 1, g)
  {
    hide Attached, Rounded, RowsAged;
  }

  lemma NextLineDrifts(w: World, s: Served, id: nat, n: nat, g: int, l: nat, drift: int)
    requires g > 0 && MidLoop(w, s, id, n, g) && s.verdict.Done? && n < |w.requests[id].lines|
            && Weighs(s.world, l, drift)
    ensures w.requests[id].lines[n].lien in w.liens
    ensures var line := w.requests[id].lines[n];
            Weighs(StoredReleaseLine(s.world, id, n, line, w.liens[line.lien], g).world, l,
                   drift + LineDrift(s.world, id, n, line, w.liens[line.lien], g, l))
  {
    hide Attached, StoredReleaseLine, RowsAged, Weighs, LineDrift;
    assert LineStarts(s.world, id, n);
    LineDrifts(s.world, id, n, g, l, drift);
  }

  // ----- The whole approval ------------------------------------------------

  /** The approval of a pending request keeps rows and leaves together, whether it goes through
      or stops half way, and the leaf of every lien differs from its row by what its lines add. */
  lemma StoredApprovalKeepsAttached(w: World, id: nat, g: int, l: nat, drift: int)
    requires g > 0 && Attached(w) && Rounded(w.db.receipts, g) && Weighs(w, l, drift)
    requires id < |w.requests| && w.requests[id].status.Pending? && Releasable(w, w.requests[id].lines)
    requires forall k :: 0 <= k < |w.requests[id].lines| ==> w.requests[id].lines[k].lien in w.liens
    ensures var v := StoredApproveRequest(w, id, g).world;
            && Attached(v) && Rounded(v.db.receipts, g) && RowsAged(w.db.receipts, v.db.receipts)
            && v == w.(db := v.db, liens := v.liens, requests := v.requests)
            && Weighs(v, l, drift + LinesDrift(w, id, |w.requests[id].lines|, g, l))
  {
    hide Attached, StoredReleaseLines, Rounded, RowsAged, LinesDrift, Releasable;
    LinesKeepAttached(w, id, |w.requests[id].lines|, g, l, drift);
    var s := StoredReleaseLines(w, w.liens, id, |w.requests[id].lines|, g);
    if s.verdict.Done? {
      DroppingKeepsAttached(s.world, id, RequestStatus.Approved);
    }
  }
}
