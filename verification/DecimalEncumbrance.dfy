/** The encumbrance of a receipt over rounding columns: how far its buckets are from its
    quantity, and when what pending requests would release exceeds what is liened. */
module DecimalEncumbrance {
  import opened InventoryTypes
  import opened Mass
  import opened Ledger
  import opened LedgerInvariant
  import opened Conservation
  import opened Tables
  import opened Services
  import opened Coupling
  import opened Encumbrance
  import opened Decimals
  import opened DecimalServices
  import opened DecimalRuns
  import opened DecimalApproval
  import opened DecimalReachable

  // ----- The buckets -------------------------------------------------------

  function ThreeBuckets(receipts: seq<Receipt>, x: nat): int {
    TreeMass(receipts, x, {ACTIVE}) + TreeMass(receipts, x, {HELD_PLEDGE_PENDING}) + TreeMass(receipts, x, {HELD_LIEN})
  }

  /** What the buckets do not show: held for withdrawals, loans and trades, awaiting approval,
      closed. */
  function Rest(receipts: seq<Receipt>, x: nat): int {
    TreeMass(receipts, x, OTHER_HELD) + TreeMass(receipts, x, {PENDING_APPROVAL}) + TreeMass(receipts, x, CLOSED_LEAF)
  }

  /** After any run of service calls, buckets and rest of a root weigh a grain more than the root
      for every split in its tree that left half a grain over. So they make up the whole exactly
      if no split did, and the three buckets alone exactly if the rest weighs those grains. */
  lemma BucketsGainAGrainPerHalfSplit(actions: seq<Action>, g: int, x: nat)
    requires g > 0
    ensures var receipts := StoredRunActions(EMPTY_WORLD, actions, g).db.receipts;
            var extra := HalfSplits(CallsOfRun(actions, g), g, InTreeOf(x));
            x < |receipts| && receipts[x].parent.None? ==>
              && ThreeBuckets(receipts, x) + Rest(receipts, x) == receipts[x].quantity + g * extra
              && (ThreeBuckets(receipts, x) + Rest(receipts, x) == receipts[x].quantity <==> extra == 0)
              && (ThreeBuckets(receipts, x) == receipts[x].quantity <==> Rest(receipts, x) == g * extra)
  {
    hide StoredRunActions, StoredRun, CallsOfRun, HalfSplits, InTreeOf, TreeMass, Framed;
    var calls := CallsOfRun(actions, g);
    var db := StoredRun(EMPTY_DB, calls, g);
    RunIsItsCalls(actions, g);
    StoredRunIsFramed(calls, g);
    LeavesGainAGrainPerHalfSplit(calls, g, x);
    if x < |db.receipts| && db.receipts[x].parent.None? {
      BucketsAreLeaves(db, x);
    }
  }

  // ----- releasePending ----------------------------------------------------

  /** What is left of the lien on leaf `i` beside the pending lines on it, by its row and the
      roundings of the run. */
  function Room(w: World, actions: seq<Action>, g: int, i: nat): int
    requires g > 0 && i < |w.db.receipts|
  {
    match w.db.receipts[i].txnId
    case Some(Uuid(l)) =>
      if l in w.liens then w.liens[l].remaining + LienDrift(actions, g, l) - PendingOn(w.requests, {i}) else 0
    case _ => 0
  }

  function RoomColumn(w: World, actions: seq<Action>, g: int): (column: seq<int>)
    requires g > 0
    ensures |column| == |w.db.receipts|
    ensures forall i :: 0 <= i < |column| ==> column[i] == Room(w, actions, g, i)
  {
    seq(|w.db.receipts|, i requires 0 <= i < |w.db.receipts| => Room(w, actions, g, i))
  }

  lemma HeldLeafHasRoom(actions: seq<Action>, g: int, i: nat)
    requires g > 0 && AdmissibleStoredRun(actions, g)
    ensures var w := StoredRunActions(EMPTY_WORLD, actions, g);
            i < |w.db.receipts| && w.db.receipts[i].status == HELD_LIEN ==>
              Room(w, actions, g, i) == w.db.receipts[i].quantity - PendingOn(w.requests, {i})
  {
    hide StoredRunActions, AdmissibleStoredRun, Attached, Rounded, LienDrift, Stored, PendingOn, HeldFor;
    var w := StoredRunActions(EMPTY_WORLD, actions, g);
    if i < |w.db.receipts| && w.db.receipts[i].status == HELD_LIEN {
      ReachableEnds(actions, g, Claim(LienClaim, 0));
      AttachedLog(w);
      assert Claimed(w, i);
      ReachableEnds(actions, g, Claim(LienClaim, w.db.receipts[i].txnId.value.id));
    }
  }

  lemma {:induction false} RoomsAddUp(requests: seq<Request>, column: seq<int>, rooms: seq<int>, rows: set<nat>)
    requires |rooms| == |column|
    requires forall i: nat :: i < |column| && i in rows ==> rooms[i] == column[i] - PendingOn(requests, {i})
    ensures Sum(rooms, rows) == Sum(column, rows) - PendingOn(requests, set i: nat | i < |column| && i in rows)
  {
    hide PendingOn;
    var upTo := set i: nat | i < |column| && i in rows;
    if column == [] {
      NothingOnNoLeaves(requests);
      assert upTo == {};
    } else {
      var n := |column| - 1;
      RoomsAddUp(requests, column[..n], rooms[..n], rows);
      var before := set i: nat | i < |column[..n]| && i in rows;
      if n in rows {
        PendingOnAdds(requests, before, {n});
        assert upTo == before + {n};
      } else {
        assert upTo == before;
      }
    }
  }

  /** `releasePending` against `liened` after any admissible run, exactly: they differ by the
      rooms of the liened leaves, so the one stays within the other if and only if those add up
      to no less than nothing. */
  lemma ReleasePendingWithinIffRoom(actions: seq<Action>, g: int, x: nat)
    requires g > 0 && AdmissibleStoredRun(actions, g)
    ensures var w := StoredRunActions(EMPTY_WORLD, actions, g);
            var rows := TreeRows(w.db.receipts, x, {HELD_LIEN});
            && PendingOn(w.requests, rows)
               == TreeMass(w.db.receipts, x, {HELD_LIEN}) - Sum(RoomColumn(w, actions, g), rows)
            && (PendingOn(w.requests, rows) <= TreeMass(w.db.receipts, x, {HELD_LIEN})
                <==> Sum(RoomColumn(w, actions, g), rows) >= 0)
  {
    hide StoredRunActions, AdmissibleStoredRun, PendingOn, Sum, Room;
    var w := StoredRunActions(EMPTY_WORLD, actions, g);
    var rows := TreeRows(w.db.receipts, x, {HELD_LIEN});
    forall i: nat | i < |w.db.receipts| && i in rows
      ensures Room(w, actions, g, i) == w.db.receipts[i].quantity - PendingOn(w.requests, {i})
    {
      HeldLeafHasRoom(actions, g, i);
    }
    RoomsAddUp(w.requests, QuantityColumn(w.db.receipts), RoomColumn(w, actions, g), rows);
    assert (set i: nat | i < |w.db.receipts| && i in rows) == rows;
  }
}
