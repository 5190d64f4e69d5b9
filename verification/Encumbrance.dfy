/** The encumbrance of a receipt (src/pledges/pledges.service.ts, lines 104-236), what
    its buckets miss, and what it says about a pledge. */
module Encumbrance {
  import opened InventoryTypes
  import opened Mass
  import opened Ledger
  import opened LedgerInvariant
  import opened Conservation
  import opened Tables
  import opened Services
  import opened Coupling
  import opened Opening
  import opened CrashRetry

  /** Quantity of the lines of pending requests that point at one of `leaves`. */
  function LinesOn(lines: seq<Line>, leaves: set<nat>): int {
    if lines == [] then 0
    else LinesOn(lines[..|lines| - 1], leaves)
         + (if lines[|lines| - 1].receipt in leaves then lines[|lines| - 1].quantity else 0)
  }

  function PendingOn(requests: seq<Request>, leaves: set<nat>): int {
    if requests == [] then 0
    else
      var last := requests[|requests| - 1];
      PendingOn(requests[..|requests| - 1], leaves) + (if last.status.Pending? then LinesOn(last.lines, leaves) else 0)
  }

  datatype Buckets = Buckets(total: int, available: int, pledgePending: int, liened: int, releasePending: int)

  /** `getReceiptEncumbrance`; none if the receipt is not the caller's. */
  method GetReceiptEncumbrance(w: World, caller: string, x: nat) returns (b: Option<Buckets>)
    ensures b.Some? <==> x < |w.db.receipts| && w.db.receipts[x].client == caller
    ensures b.Some? ==>
              && b.value.total == w.db.receipts[x].quantity
              && b.value.available == TreeMass(w.db.receipts, x, {ACTIVE})
              && b.value.pledgePending == TreeMass(w.db.receipts, x, {HELD_PLEDGE_PENDING})
              && b.value.liened == TreeMass(w.db.receipts, x, {HELD_LIEN})
              && b.value.releasePending == PendingOn(w.requests, TreeRows(w.db.receipts, x, {HELD_LIEN}))
  {
    hide Sum;
    var receipts := w.db.receipts;
    if !(x < |receipts| && receipts[x].client == caller) {
      return None;
    }
    var available, pledgePending, liened, heldLienIds: set<nat> := 0, 0, 0, {};
    SumEmpty(QuantityColumn(receipts)[..0], TreeRows(receipts, x, {ACTIVE}));
    SumEmpty(QuantityColumn(receipts)[..0], TreeRows(receipts, x, {HELD_PLEDGE_PENDING}));
    SumEmpty(QuantityColumn(receipts)[..0], TreeRows(receipts, x, {HELD_LIEN}));
    for i := 0 to |receipts|
      invariant available == Sum(QuantityColumn(receipts)[..i], TreeRows(receipts, x, {ACTIVE}))
      invariant pledgePending == Sum(QuantityColumn(receipts)[..i], TreeRows(receipts, x, {HELD_PLEDGE_PENDING}))
      invariant liened == Sum(QuantityColumn(receipts)[..i], TreeRows(receipts, x, {HELD_LIEN}))
      invariant heldLienIds == set k: nat | k < i && k in TreeRows(receipts, x, {HELD_LIEN})
    {
      var r, column := receipts[i], QuantityColumn(receipts);
      assert column[..i + 1] == column[..i] + [column[i]];
      SumPush(column[..i], column[i], TreeRows(receipts, x, {ACTIVE}));
      SumPush(column[..i], column[i], TreeRows(receipts, x, {HELD_PLEDGE_PENDING}));
      SumPush(column[..i], column[i], TreeRows(receipts, x, {HELD_LIEN}));
      if r.tenant == receipts[x].tenant && (r.root == x || i == x) {
        if r.status == ACTIVE {
          available := available + r.quantity;
        } else if r.status == HELD_PLEDGE_PENDING {
          pledgePending := pledgePending + r.quantity;
        } else if r.status == HELD_LIEN {
          liened := liened + r.quantity;
          heldLienIds := heldLienIds + {i};
        }
      }
    }
    assert QuantityColumn(receipts)[..|receipts|] == QuantityColumn(receipts);
    assert heldLienIds == TreeRows(receipts, x, {HELD_LIEN});
    var releasePending := 0;
    if heldLienIds != {} {
      releasePending := SumPendingLines(w.requests, heldLienIds);
    } else {
      NothingOnNoLeaves(w.requests);
    }
    b := Some(Buckets(receipts[x].quantity, available, pledgePending, liened, releasePending));
  }

  method SumPendingLines(requests: seq<Request>, leaves: set<nat>) returns (total: int)
    ensures total == PendingOn(requests, leaves)
  {
    total := 0;
    for i := 0 to |requests|
      invariant total == PendingOn(requests[..i], leaves)
    {
      assert requests[..i + 1][..i] == requests[..i];
      if requests[i].status.Pending? {
        var before := total;
        for k := 0 to |requests[i].lines|
          invariant total == before + LinesOn(requests[i].lines[..k], leaves)
        {
          assert requests[i].lines[..k + 1][..k] == requests[i].lines[..k];
          if requests[i].lines[k].receipt in leaves {
            total := total + requests[i].lines[k].quantity;
          }
        }
        assert requests[i].lines[..|requests[i].lines|] == requests[i].lines;
      }
    }
    assert requests[..|requests|] == requests;
  }

  lemma {:induction false} NoLinesOnNoLeaves(lines: seq<Line>)
    ensures LinesOn(lines, {}) == 0
  {
    if lines != [] {
      NoLinesOnNoLeaves(lines[..|lines| - 1]);
    }
  }

  lemma {:induction false} NothingOnNoLeaves(requests: seq<Request>)
    ensures PendingOn(requests, {}) == 0
  {
    if requests != [] {
      NothingOnNoLeaves(requests[..|requests| - 1]);
      NoLinesOnNoLeaves(requests[|requests| - 1].lines);
    }
  }

  // ----- The buckets and the tree ------------------------------------------

  const OTHER_HELD: set<ReceiptStatus> := {HELD_WITHDRAWAL, HELD_LOAN, HELD_TRADE}
  const CLOSED_LEAF: set<ReceiptStatus> := {WITHDRAWN, TRADED_OUT, SEIZED, ReceiptStatus.EXPIRED, CANCELLED}

  /** A tree has one tenant. */
  lemma {:induction false} TreesHaveOneTenant(receipts: seq<Receipt>, i: nat)
    requires Lineage(receipts) && i < |receipts|
    ensures receipts[i].root < |receipts| && receipts[i].tenant == receipts[receipts[i].root].tenant
  {
    assert LineageAt(receipts, i);
    if receipts[i].parent.Some? {
      TreesHaveOneTenant(receipts, receipts[i].parent.value);
    }
  }

  lemma MassOfUnion(receipts: seq<Receipt>, x: nat, a: set<ReceiptStatus>, b: set<ReceiptStatus>)
    requires a !! b
    ensures TreeMass(receipts, x, a + b) == TreeMass(receipts, x, a) + TreeMass(receipts, x, b)
  {
    SumUnion(QuantityColumn(receipts), TreeRows(receipts, x, a), TreeRows(receipts, x, b));
    assert TreeRows(receipts, x, a + b) == TreeRows(receipts, x, a) + TreeRows(receipts, x, b);
  }

  /** The rows of a root's tree that have not been superseded are the leaves of the tree. */
  lemma RootRowsAreLeaves(db: Db, x: nat, statuses: set<ReceiptStatus>)
    requires Framed(db) && x < |db.receipts| && db.receipts[x].parent.None?
    requires forall s :: s in statuses <==> s != SPLIT
    ensures TreeRows(db.receipts, x, statuses) == LeavesOf(db.receipts, x)
  {
    forall i: nat | i < |db.receipts|
      ensures i in TreeRows(db.receipts, x, statuses) <==> i in LeavesOf(db.receipts, x)
    {
      TreesHaveOneTenant(db.receipts, i);
      assert RowRules(db.receipts[i]) && LineageAt(db.receipts, x);
    }
  }

  /** For every root the three buckets together with the quantity held for withdrawals, loans
      and trades, the quantity awaiting approval and the quantity closed make up the leaves. */
  lemma BucketsAreLeaves(db: Db, x: nat)
    requires Framed(db) && x < |db.receipts| && db.receipts[x].parent.None?
    ensures Sum(QuantityColumn(db.receipts), LeavesOf(db.receipts, x))
         == TreeMass(db.receipts, x, {ACTIVE}) + TreeMass(db.receipts, x, {HELD_PLEDGE_PENDING})
         + TreeMass(db.receipts, x, {HELD_LIEN})
            + TreeMass(db.receipts, x, OTHER_HELD) + TreeMass(db.receipts, x, {PENDING_APPROVAL})
              + TreeMass(db.receipts, x, CLOSED_LEAF)
  {
    var receipts := db.receipts;
    var s2, s3, s4, s5 := {ACTIVE} + {HELD_PLEDGE_PENDING}, {ACTIVE} + {HELD_PLEDGE_PENDING} + {HELD_LIEN},
      {ACTIVE} + {HELD_PLEDGE_PENDING} + {HELD_LIEN} + OTHER_HELD,
      {ACTIVE} + {HELD_PLEDGE_PENDING} + {HELD_LIEN} + OTHER_HELD + {PENDING_APPROVAL};
    RootRowsAreLeaves(db, x, s5 + CLOSED_LEAF);
    assert TreeMass(receipts, x, s5 + CLOSED_LEAF) == Sum(QuantityColumn(receipts), LeavesOf(receipts, x));
    hide Framed, TreeMass;
    MassOfUnion(receipts, x, {ACTIVE}, {HELD_PLEDGE_PENDING});
    MassOfUnion(receipts, x, s2, {HELD_LIEN});
    MassOfUnion(receipts, x, s3, OTHER_HELD);
    MassOfUnion(receipts, x, s4, {PENDING_APPROVAL});
    MassOfUnion(receipts, x, s5, CLOSED_LEAF);
  }

  /** Encumbrance agrees with the tree: the three buckets and the rest make up the whole. */
  lemma BucketsAndTheRestAddUp(db: Db, x: nat)
    requires Sound(db) && x < |db.receipts| && db.receipts[x].parent.None?
    ensures db.receipts[x].quantity
         == TreeMass(db.receipts, x, {ACTIVE}) + TreeMass(db.receipts, x, {HELD_PLEDGE_PENDING})
         + TreeMass(db.receipts, x, {HELD_LIEN})
            + TreeMass(db.receipts, x, OTHER_HELD) + TreeMass(db.receipts, x, {PENDING_APPROVAL})
              + TreeMass(db.receipts, x, CLOSED_LEAF)
  {
    hide Sound, TreeMass;
    SoundIsFramed(db);
    SoundTreesBalance(db, x);
    BucketsAreLeaves(db, x);
  }

  lemma MassIsPositive(db: Db, x: nat, statuses: set<ReceiptStatus>)
    requires Sound(db)
    ensures TreeMass(db.receipts, x, statuses) >= 0
    ensures TreeMass(db.receipts, x, statuses) == 0 <==> TreeRows(db.receipts, x, statuses) == {}
  {
    forall i: nat | i < |db.receipts| && i in TreeRows(db.receipts, x, statuses)
      ensures QuantityColumn(db.receipts)[i] > 0
    {
      assert NodesOf(db.receipts)[i].quantity > 0;
    }
    SumPositive(QuantityColumn(db.receipts), TreeRows(db.receipts, x, statuses));
  }

  /** "available + pledgePending + liened == totalQuantity", which the comment at
      src/pledges/pledges.service.ts:96 calls an invariant, holds of a root exactly
      when its tree has no leaf held for a withdrawal, loan or trade, none awaiting
      approval and none closed. */
  lemma ThreeBucketsIffNothingElse(db: Db, x: nat)
    requires Sound(db) && x < |db.receipts| && db.receipts[x].parent.None?
    ensures db.receipts[x].quantity
            == TreeMass(db.receipts, x, {ACTIVE}) + TreeMass(db.receipts, x, {HELD_PLEDGE_PENDING})
            + TreeMass(db.receipts, x, {HELD_LIEN})
       <==> forall i: nat :: i < |db.receipts| && db.receipts[i].root == x ==>
              db.receipts[i].status in {ACTIVE, HELD_PLEDGE_PENDING, HELD_LIEN, SPLIT}
  {
    BucketsAndTheRestAddUp(db, x);
    MassIsPositive(db, x, OTHER_HELD);
    MassIsPositive(db, x, {PENDING_APPROVAL});
    MassIsPositive(db, x, CLOSED_LEAF);
    RestIsEmpty(db, x);
    hide Sound, TreeMass, TreeRows;
  }

  lemma RowsInTree(db: Db, x: nat, i: nat, s: set<ReceiptStatus>)
    requires Sound(db) && x < |db.receipts| && db.receipts[x].parent.None? && i < |db.receipts|
    ensures i in TreeRows(db.receipts, x, s) <==> db.receipts[i].root == x && db.receipts[i].status in s
  {
    TreesHaveOneTenant(db.receipts, i);
    assert LineageAt(db.receipts, x);
  }

  lemma EveryStatusIsSomewhere(s: ReceiptStatus)
    ensures s !in {ACTIVE, HELD_PLEDGE_PENDING, HELD_LIEN, SPLIT}
           <==> s in OTHER_HELD || s in {PENDING_APPROVAL} || s in CLOSED_LEAF
  {
    match s
    case SPLIT =>
    case ACTIVE =>
    case _ =>
  }

  lemma RestIsEmpty(db: Db, x: nat)
    requires Sound(db) && x < |db.receipts| && db.receipts[x].parent.None?
    ensures (TreeRows(db.receipts, x, OTHER_HELD) == {} && TreeRows(db.receipts, x, {PENDING_APPROVAL}) == {}
             && TreeRows(db.receipts, x, CLOSED_LEAF) == {})
       <==> forall i: nat :: i < |db.receipts| && db.receipts[i].root == x ==>
              db.receipts[i].status in {ACTIVE, HELD_PLEDGE_PENDING, HELD_LIEN, SPLIT}
  {
    hide Sound;
    forall i: nat | i < |db.receipts|
      ensures db.receipts[i].root == x && db.receipts[i].status !in {ACTIVE, HELD_PLEDGE_PENDING, HELD_LIEN, SPLIT}
         <==> i in TreeRows(db.receipts, x, OTHER_HELD) || i in TreeRows(db.receipts, x, {PENDING_APPROVAL})
              || i in TreeRows(db.receipts, x, CLOSED_LEAF)
    {
      RowsInTree(db, x, i, OTHER_HELD);
      RowsInTree(db, x, i, {PENDING_APPROVAL});
      RowsInTree(db, x, i, CLOSED_LEAF);
      EveryStatusIsSomewhere(db.receipts[i].status);
    }
    assert forall s, i :: i in TreeRows(db.receipts, x, s) ==> i < |db.receipts|;
  }

  // ----- Pledging ----------------------------------------------------------

  /** Alone in its tree, an unsplit receipt carries its own quantity. */
  lemma LeafIsItsWholeTree(db: Db, x: nat)
    requires Sound(db) && x < |db.receipts| && db.receipts[x].status == ACTIVE
    ensures TreeMass(db.receipts, x, {ACTIVE}) == db.receipts[x].quantity
  {
    var receipts, column := db.receipts, QuantityColumn(db.receipts);
    var rows := TreeRows(receipts, x, {ACTIVE});
    assert LineageAt(receipts, x) && RowRules(receipts[x]);
    SumRemove(column, rows, x);
    if receipts[x].parent.None? {
      SoundTreesBalance(db, x);
      SumRemove(column, LeavesOf(receipts, x), x);
      PositiveQuantities(db);
      SumPositive(column, LeavesOf(receipts, x) - {x});
      forall i: nat | i < |receipts|
        ensures i !in rows - {x}
      {
        assert i !in LeavesOf(receipts, x) - {x};
        assert RowRules(receipts[i]);
      }
    } else {
      forall i: nat | i < |receipts|
        ensures i !in rows - {x}
      {
        assert LineageAt(receipts, i);
      }
    }
    SumEmpty(column, rows - {x});
  }

  lemma PositiveQuantities(db: Db)
    requires Sound(db)
    ensures forall i: nat :: i < |db.receipts| ==> QuantityColumn(db.receipts)[i] > 0
  {
  }

  /** For an unsplit receipt the bound checked before pledging is the bound the hold
      enforces: past its own checks, a pledge succeeds exactly when its receipt is
      ACTIVE. A split receipt passes those checks too, and is always refused. */
  lemma PledgeSucceedsIffActive(w: World, a: Action)
    requires Healthy(w) && a.CreatePledge? && FreshId(w, a) && GateOf(w, a).Proceed?
    ensures Perform(w, a).verdict.Done? <==> w.db.receipts[a.receipt].status == ACTIVE
    ensures Perform(w, a).verdict.Refused? ==> Perform(w, a) == Served(w, Refused(LedgerRefused(NotTransactable)))
  {
    var call := LedgerCall(w, a).value;
    assert call == Call(a.caller.tenant, PledgeKey(CreateWord, a.id),
                        Hold(a.receipt, a.quantity, HELD_PLEDGE_PENDING, PLEDGE, Uuid(a.id)));
    assert a.receipt < |w.db.receipts| && 0 < a.quantity <= TreeMass(w.db.receipts, a.receipt, {ACTIVE});
    assert Present(w.db.receipts, a.receipt, call.tenant);
    hide GateOf, LedgerCall, Perform, TreeMass;
    OpensOrChangesNothing(w, a);
    if w.db.receipts[a.receipt].status == ACTIVE {
      LeafIsItsWholeTree(w.db, a.receipt);
      ActiveIsPlain(w.db, a.receipt);
      HoldFits(w.db, call);
    } else {
      OpeningKeyIsUnused(w, a);
      OnlyActiveCanBeOpened(w, a);
    }
  }

  lemma OpeningKeyIsUnused(w: World, a: Action)
    requires Healthy(w) && Opens(a) && FreshId(w, a) && GateOf(w, a).Proceed? && LedgerCall(w, a).Some?
    ensures !KeyUsed(w.db.events, LedgerCall(w, a).value.key)
  {
    hide GateOf, LedgerCall, Sound, Coupled, LiensSound, RequestsSound, PledgesSound, WithdrawalsSound, WindowSound,
         MayUse, KeyUsed;
    HealthyWithdrawalsFit(w);
    AsksForAHold(w, a);
    assert Uses(LedgerCall(w, a).value, LedgerCall(w, a).value.key);
  }

  lemma ActiveIsPlain(db: Db, x: nat)
    requires Sound(db) && x < |db.receipts| && db.receipts[x].status == ACTIVE
    ensures db.receipts[x].approval == APPROVED && !db.receipts[x].isParent
  {
    assert RowRules(db.receipts[x]);
  }

  lemma HoldFits(db: Db, call: Call)
    requires call.op.Hold? && Present(db.receipts, call.op.receipt, call.tenant)
    requires var r := db.receipts[call.op.receipt];
             r.status == ACTIVE && r.approval == APPROVED && !r.isParent && 0 < call.op.quantity <= r.quantity
    ensures Plan(db, call).Ok?
  {
    hide SplitSuffixes, Partition, Child, KeyUsed;
  }

  // ----- releasePending ----------------------------------------------------

  lemma {:induction false} LinesOnAdds(lines: seq<Line>, a: set<nat>, b: set<nat>)
    requires a !! b
    ensures LinesOn(lines, a + b) == LinesOn(lines, a) + LinesOn(lines, b)
  {
    if lines != [] {
      LinesOnAdds(lines[..|lines| - 1], a, b);
    }
  }

  lemma {:induction false} PendingOnAdds(requests: seq<Request>, a: set<nat>, b: set<nat>)
    requires a !! b
    ensures PendingOn(requests, a + b) == PendingOn(requests, a) + PendingOn(requests, b)
  {
    if requests != [] {
      PendingOnAdds(requests[..|requests| - 1], a, b);
      LinesOnAdds(requests[|requests| - 1].lines, a, b);
    }
  }

  lemma {:induction false} LinesOnLeaf(lines: seq<Line>, leaf: nat, lien: nat)
    requires forall k :: 0 <= k < |lines| ==>
               lines[k].quantity > 0 && (lines[k].receipt == leaf ==> lines[k].lien == lien)
    ensures LinesOn(lines, {leaf}) <= LineSum(lines, lien)
  {
    if lines != [] {
      LinesOnLeaf(lines[..|lines| - 1], leaf, lien);
    }
  }

  lemma {:induction false} PendingOnLeaf(receipts: seq<Receipt>, liens: map<nat, Lien>, requests: seq<Request>,
                                         leaf: nat, lien: nat)
    requires RequestsSound(receipts, liens, requests)
    requires leaf < |receipts| && receipts[leaf].txnId == Some(Uuid(lien))
    ensures PendingOn(requests, {leaf}) <= AskedOf(requests, RequestStatus.Pending, lien)
  {
    if requests != [] {
      var last := requests[|requests| - 1];
      PendingOnLeaf(receipts, liens, requests[..|requests| - 1], leaf, lien);
      assert RequestSound(receipts, liens, last);
      forall k | 0 <= k < |last.lines|
        ensures last.lines[k].quantity > 0 && (last.lines[k].receipt == leaf ==> last.lines[k].lien == lien)
      {
        assert LineSound(receipts, liens, last, last.lines[k]);
      }
      LinesOnLeaf(last.lines, leaf, lien);
    }
  }

  lemma LeafCarriesItsReservations(w: World, i: nat)
    requires Healthy(w) && i < |w.db.receipts| && w.db.receipts[i].status == HELD_LIEN
    ensures PendingOn(w.requests, {i}) <= w.db.receipts[i].quantity
  {
    hide Sound, KeysAhead, PledgesSound, WithdrawalsSound, WindowSound, RequestsSound, AskedOf, PendingOn;
    assert Claimed(w, i);
    var l := w.db.receipts[i].txnId.value.id;
    var c := Claim(LienClaim, l);
    assert StakeOf(w, c).Some? && Backs(w.db.receipts, c, StakeOf(w, c).value);
    assert LienSound(w.liens[l], w.requests, l);
    PendingOnLeaf(w.db.receipts, w.liens, w.requests, i, l);
  }

  lemma {:induction false} ReservationsUpTo(w: World, x: nat, n: nat)
    requires Healthy(w) && n <= |w.db.receipts|
    ensures PendingOn(w.requests, set i: nat | i < n && i in TreeRows(w.db.receipts, x, {HELD_LIEN}))
         <= Sum(QuantityColumn(w.db.receipts)[..n], TreeRows(w.db.receipts, x, {HELD_LIEN}))
  {
    hide Healthy, PendingOn, Sum;
    var column, rows := QuantityColumn(w.db.receipts), TreeRows(w.db.receipts, x, {HELD_LIEN});
    var upTo := set i: nat | i < n && i in rows;
    if n == 0 {
      NothingOnNoLeaves(w.requests);
      assert upTo == {};
      SumEmpty(column[..0], rows);
    } else {
      ReservationsUpTo(w, x, n - 1);
      var before := set i: nat | i < n - 1 && i in rows;
      SumPush(column[..n - 1], column[n - 1], rows);
      assert column[..n] == column[..n - 1] + [column[n - 1]];
      if n - 1 in rows {
        LeafCarriesItsReservations(w, n - 1);
        PendingOnAdds(w.requests, before, {n - 1});
        assert upTo == before + {n - 1};
      } else {
        assert upTo == before;
      }
    }
  }

  /** What pending requests would release of a receipt is never more than its liens hold. */
  lemma ReleasePendingWithinLiened(w: World, x: nat)
    requires Healthy(w)
    ensures PendingOn(w.requests, TreeRows(w.db.receipts, x, {HELD_LIEN})) <= TreeMass(w.db.receipts, x, {HELD_LIEN})
  {
    hide Healthy, PendingOn, Sum;
    ReservationsUpTo(w, x, |w.db.receipts|);
    assert QuantityColumn(w.db.receipts)[..|w.db.receipts|] == QuantityColumn(w.db.receipts);
    assert (set i: nat | i < |w.db.receipts| && i in TreeRows(w.db.receipts, x, {HELD_LIEN}))
      == TreeRows(w.db.receipts, x, {HELD_LIEN});
  }
}
