/** The approval loop over any state of the ledger, healthy or not: a request over
    distinct liens and distinct leaves goes through exactly if each of its lines, run
    alone on the state the loop starts from, does. */
module LineByLine {
  import opened InventoryTypes
  import opened ReceiptNumbers
  import opened Ledger
  import ExactlyOnce
  import opened Tables
  import opened Services
  import opened Coupling
  import opened ApprovalLoop
  import opened Decimals
  import opened DecimalServices
  import opened DecimalCoupling

  ghost predicate IsLineCall(call: Call) {
    call.op.Release? || call.op.ReleasePartial?
  }

  /** The ledger call of a line leaves the loop something to write. */
  ghost predicate Goes(db: Db, call: Call, g: int)
    requires g > 0
  {
    var reply := StoredInvoke(db, call, g).reply;
    reply.Ok? && (call.op.ReleasePartial? ==> reply.value.PartialReply? && reply.value.remainingHeld.Some?)
  }

  /** Nothing a line's call looks at differs between two states of the ledger. */
  ghost predicate Undisturbed(m: Db, v: Db, call: Call)
    requires IsLineCall(call)
  {
    && |m.receipts| <= |v.receipts| && |m.events| <= |v.events|
    && (forall i {:trigger v.receipts[i]} :: 0 <= i < |m.receipts| ==> v.receipts[i].tenant == m.receipts[i].tenant)
    && (forall e {:trigger v.events[e]} :: 0 <= e < |m.events| ==> v.events[e] == m.events[e])
    && FindEvent(v.events, call.key) == FindEvent(m.events, call.key)
    && (call.op.receipt < |m.receipts| ==> v.receipts[call.op.receipt] == m.receipts[call.op.receipt])
    && (FindEvent(m.events, call.key).Some? ==>
          FindKid(v.receipts, FindEvent(m.events, call.key).value, {HELD_LIEN})
          == FindKid(m.receipts, FindEvent(m.events, call.key).value, {HELD_LIEN}))
  }

  /** The call is about a row on file, and so is the event that may already carry its key. */
  ghost predicate OnFile(m: Db, call: Call)
    requires IsLineCall(call)
  {
    && call.op.receipt < |m.receipts|
    && (FindEvent(m.events, call.key).Some? ==> m.events[FindEvent(m.events, call.key).value].from < |m.receipts|)
  }

  lemma ReplayGoes(db: Db, call: Call, g: int)
    requires g > 0 && IsLineCall(call) && FindEvent(db.events, call.key).Some?
    ensures var e := FindEvent(db.events, call.key).value;
            Goes(db, call, g)
            <==> if call.op.ReleasePartial? then FindKid(db.receipts, e, {HELD_LIEN}).Some?
                 else Present(db.receipts, db.events[e].from, db.events[e].tenant)
  {
    hide FindEvent, FindKid, StoredTransact;
  }

  lemma FreshGoes(db: Db, call: Call, g: int)
    requires g > 0 && IsLineCall(call) && FindEvent(db.events, call.key).None?
    ensures Goes(db, call, g) <==> Plan(db, call).Ok?
  {
    hide Plan, FindEvent, FindKid, KeyUsed, Collides, StoredChange, StoredEvents;
    ExactlyOnce.FoundIsUsed(db.events, call.key);
    if Plan(db, call).Ok? {
      StoredCallCommits(db, call, g);
    }
  }

  lemma PlansAlike(m: Db, v: Db, call: Call)
    requires IsLineCall(call) && call.op.receipt < |m.receipts| && call.op.receipt < |v.receipts|
    requires v.receipts[call.op.receipt] == m.receipts[call.op.receipt]
    ensures Plan(v, call).Ok? <==> Plan(m, call).Ok?
    ensures Plan(m, call).Err? ==> Plan(v, call) == Plan(m, call)
  {
    hide SplitSuffixes, Child, KeyUsed;
  }

  lemma UndisturbedGoes(m: Db, v: Db, call: Call, g: int)
    requires g > 0 && IsLineCall(call) && OnFile(m, call) && Undisturbed(m, v, call)
    ensures Goes(v, call, g) <==> Goes(m, call, g)
  {
    hide Goes, Plan, FindEvent, FindKid;
    if FindEvent(m.events, call.key).Some? {
      ReplayGoes(m, call, g);
      ReplayGoes(v, call, g);
    } else {
      FreshGoes(m, call, g);
      FreshGoes(v, call, g);
      PlansAlike(m, v, call);
    }
  }

  // ----- What one line leaves alone ----------------------------------------

  /** A line's call changes nothing, or its own leaf, and files one event under its own key. */
  ghost predicate Steps(before: Db, after: Db, call: Call)
    requires IsLineCall(call)
  {
    after == before
    || (&& call.op.receipt < |before.receipts| <= |after.receipts|
        && |after.events| == |before.events| + 1 && after.events == before.events + [after.events[|before.events|]]
        && after.events[|before.events|].key == call.key
        && (forall i :: 0 <= i < |before.receipts| && i != call.op.receipt ==> after.receipts[i] == before.receipts[i])
        && after.receipts[call.op.receipt].tenant == before.receipts[call.op.receipt].tenant
        && after.receipts[call.op.receipt].sourceEvent == before.receipts[call.op.receipt].sourceEvent
        && (forall i :: |before.receipts| <= i < |after.receipts| ==>
              after.receipts[i].sourceEvent == Some(|before.events|)))
  }

  lemma LineSteps(db: Db, call: Call, g: int)
    requires g > 0 && IsLineCall(call)
    ensures Steps(db, StoredInvoke(db, call, g).db, call)
  {
    hide SplitSuffixes, ChildNumber, BaseReceiptNumber, KeyUsed, FindEvent, FindKid, Stored, Collides, FreshReply,
         Reconstruct;
  }

  lemma KeyStaysFound(events: seq<Event>, ev: Event, key: Key)
    requires ev.key != key
    ensures FindEvent(events + [ev], key) == FindEvent(events, key)
  {
    assert (events + [ev])[..|events|] == events;
  }

  lemma KidStaysFound(before: seq<Receipt>, after: seq<Receipt>, e: nat, wanted: set<ReceiptStatus>)
    requires |before| <= |after|
    requires forall i :: 0 <= i < |before| ==>
               after[i] == before[i] || (before[i].sourceEvent != Some(e) && after[i].sourceEvent != Some(e))
    requires forall i :: |before| <= i < |after| ==> after[i].sourceEvent != Some(e)
    ensures FindKid(after, e, wanted) == FindKid(before, e, wanted)
  {
    KidIsFirst(before, e, wanted);
    KidIsFirst(after, e, wanted);
    hide FindKid;
    var a, b := FindKid(before, e, wanted), FindKid(after, e, wanted);
    if a.Some? {
      assert after[a.value] == before[a.value];
    }
    if b.Some? {
      assert b.value < |before| && after[b.value] == before[b.value];
    }
  }

  lemma KidIsFirst(receipts: seq<Receipt>, e: nat, wanted: set<ReceiptStatus>)
    ensures var found := FindKid(receipts, e, wanted);
            && (found.Some? ==> found.value < |receipts| && receipts[found.value].sourceEvent == Some(e)
                                && receipts[found.value].status in wanted)
            && (forall j: nat ::
                  j < (if found.Some? then found.value else |receipts|) && receipts[j].sourceEvent == Some(e)
                  ==> receipts[j].status !in wanted)
  {
  }

  /** Two lines of one request, over different leaves. */
  ghost predicate KeepClear(m: Db, mine: Call, other: Call)
    requires IsLineCall(mine) && IsLineCall(other)
  {
    && mine.key != other.key && mine.op.receipt != other.op.receipt
    && other.op.receipt < |m.receipts|
    && (FindEvent(m.events, mine.key).Some? ==>
          m.receipts[other.op.receipt].sourceEvent != Some(FindEvent(m.events, mine.key).value))
  }

  lemma StaysUndisturbed(m: Db, v: Db, u: Db, mine: Call, other: Call)
    requires IsLineCall(mine) && IsLineCall(other) && KeepClear(m, mine, other)
    requires Undisturbed(m, v, mine) && Undisturbed(m, v, other) && Steps(v, u, other)
    ensures Undisturbed(m, u, mine)
  {
    hide FindEvent, FindKid;
    if u != v {
      KeyStaysFound(v.events, u.events[|v.events|], mine.key);
      if FindEvent(m.events, mine.key).Some? {
        KidStaysFound(v.receipts, u.receipts, FindEvent(m.events, mine.key).value, {HELD_LIEN});
      }
    }
  }

  // ----- The loop ----------------------------------------------------------

  /** What keeps the lines of a request out of each other's way. */
  ghost predicate Apart(m: World, id: nat) {
    && id < |m.requests|
    && (forall k :: 0 <= k < |m.requests[id].lines| ==> m.requests[id].lines[k].lien in m.liens)
    && DistinctLiens(m.requests[id].lines)
    && (forall k: nat {:trigger CallOf(m, id, k)} :: k < |m.requests[id].lines| ==> OnFile(m.db, CallOf(m, id, k)))
    && (forall j: nat, k: nat {:trigger CallOf(m, id, j), CallOf(m, id, k)} ::
          j < |m.requests[id].lines| && k < |m.requests[id].lines| && j != k ==>
          KeepClear(m.db, CallOf(m, id, j), CallOf(m, id, k)))
  }

  /** The liens after `n` lines: each line is off its lien as the snapshot shows it. */
  ghost predicate TakenOff(m: World, v: World, id: nat, n: nat)
    requires id < |m.requests| && n <= |m.requests[id].lines|
  {
    v == m.(db := v.db, liens := v.liens) && LiensMoved(m, v, id, n)
  }

  lemma LineGoes(m: World, v: World, id: nat, n: nat, g: int)
    requires g > 0 && id < |m.requests| && n < |m.requests[id].lines| && DistinctLiens(m.requests[id].lines)
    requires m.requests[id].lines[n].lien in m.liens && TakenOff(m, v, id, n)
    ensures var line, call := m.requests[id].lines[n], CallOf(m, id, n);
            var s := StoredReleaseLine(v, id, n, line, LienOf(m, id, n), g);
            && (s.verdict.Done? <==> Goes(v.db, call, g))
            && s.world.db == StoredInvoke(v.db, call, g).db
            && (s.verdict.Done? ==> TakenOff(m, s.world, id, n + 1))
  {
    hide StoredInvoke, LessItsLine;
    var line, lien := m.requests[id].lines[n], LienOf(m, id, n);
    var s := StoredReleaseLine(v, id, n, line, lien, g);
    if s.verdict.Done? {
      var after := s.world.liens[line.lien];
      assert s.world == v.(db := s.world.db, liens := v.liens[line.lien := after]);
      assert LessItsLine(lien, line, after) by {
        assert v.liens[line.lien] == lien;
        LineTakesOff(v, id, n, line, lien, g);
      }
      hide StoredReleaseLine;
      NextLienMoves(m, v, s.world, id, n, after);
    }
  }

  lemma LineTakesOff(v: World, id: nat, n: nat, line: Line, lien: Lien, g: int)
    requires g > 0 && id < |v.requests| && line.lien in v.liens && v.liens[line.lien] == lien
    requires StoredReleaseLine(v, id, n, line, lien, g).verdict.Done?
    ensures line.lien in StoredReleaseLine(v, id, n, line, lien, g).world.liens
    ensures LessItsLine(lien, line, StoredReleaseLine(v, id, n, line, lien, g).world.liens[line.lien])
  {
    hide StoredInvoke;
  }

  lemma NextLienMoves(m: World, v: World, u: World, id: nat, n: nat, after: Lien)
    requires id < |m.requests| && n < |m.requests[id].lines| && DistinctLiens(m.requests[id].lines)
    requires m.requests[id].lines[n].lien in m.liens && LiensMoved(m, v, id, n)
    requires u.liens == v.liens[m.requests[id].lines[n].lien := after]
    requires LessItsLine(LienOf(m, id, n), m.requests[id].lines[n], after)
    ensures LiensMoved(m, u, id, n + 1)
  {
    hide LessItsLine;
  }

  lemma {:induction false} LoopGoesIffEachLineGoes(m: World, id: nat, n: nat, g: int)
    requires g > 0 && Apart(m, id) && n <= |m.requests[id].lines|
    ensures var s := StoredReleaseLines(m, m.liens, id, n, g);
            && (s.verdict.Done? <==> forall k: nat :: k < n ==> Goes(m.db, CallOf(m, id, k), g))
            && (s.verdict.Done? ==>
                  && TakenOff(m, s.world, id, n)
                  && forall k: nat {:trigger CallOf(m, id, k)} :: n <= k < |m.requests[id].lines| ==>
                       Undisturbed(m.db, s.world.db, CallOf(m, id, k)))
  {
    hide StoredInvoke, StoredReleaseLine, Goes, Undisturbed, CallOf, OnFile, KeepClear, TakenOff, IsLineCall;
    if n == 0 {
      NothingTakenOff(m, id);
    } else {
      var before, call := StoredReleaseLines(m, m.liens, id, n - 1, g), CallOf(m, id, n - 1);
      LoopGoesIffEachLineGoes(m, id, n - 1, g);
      AreLineCalls(m, id);
      if before.verdict.Done? {
        var v := before.world;
        LineGoes(m, v, id, n - 1, g);
        UndisturbedGoes(m.db, v.db, call, g);
        LineSteps(v.db, call, g);
        forall k: nat | n <= k < |m.requests[id].lines|
          ensures Undisturbed(m.db, StoredInvoke(v.db, call, g).db, CallOf(m, id, k))
        {
          StaysUndisturbed(m.db, v.db, StoredInvoke(v.db, call, g).db, CallOf(m, id, k), call);
        }
      }
    }
  }

  lemma AreLineCalls(m: World, id: nat)
    requires id < |m.requests| && forall k :: 0 <= k < |m.requests[id].lines| ==>
               m.requests[id].lines[k].lien in m.liens
    ensures forall k: nat {:trigger CallOf(m, id, k)} :: k < |m.requests[id].lines| ==> IsLineCall(CallOf(m, id, k))
  {
  }

  lemma NothingTakenOff(m: World, id: nat)
    requires Apart(m, id)
    ensures TakenOff(m, m, id, 0)
    ensures forall k: nat {:trigger CallOf(m, id, k)} :: k < |m.requests[id].lines| ==>
               Undisturbed(m.db, m.db, CallOf(m, id, k))
  {
    hide FindEvent, FindKid;
  }

  // ----- Approvals over rounding columns ------------------------------------

  /** A request ready to be approved, but for what its leaves weigh: distinct live liens on
      distinct held leaves, under keys nobody used. */
  ghost predicate ReadyToApprove(w: World, id: nat) {
    && id < |w.requests| && Releasable(w, w.requests[id].lines) && DistinctLiens(w.requests[id].lines)
    && (forall k: nat :: k < |w.requests[id].lines| ==> LineIsReady(w, id, k) && LeafIsHeld(w, id, k))
    && (forall j: nat, k: nat {:trigger LineIsReady(w, id, j), LineIsReady(w, id, k)} ::
          j < k < |w.requests[id].lines| ==> LienOf(w, id, j).receipt != LienOf(w, id, k).receipt)
  }

  ghost predicate LeafIsHeld(w: World, id: nat, k: nat)
    requires id < |w.requests| && k < |w.requests[id].lines| && w.requests[id].lines[k].lien in w.liens
  {
    var leaf := LienOf(w, id, k).receipt;
    Present(w.db.receipts, leaf, w.requests[id].tenant) && w.db.receipts[leaf].status == HELD_LIEN
  }

  lemma HeldLineGoes(w: World, id: nat, k: nat, g: int)
    requires g > 0 && ReadyToApprove(w, id) && k < |w.requests[id].lines|
    ensures w.requests[id].lines[k].lien in w.liens && IsLineCall(CallOf(w, id, k)) && OnFile(w.db, CallOf(w, id, k))
    ensures FindEvent(w.db.events, CallOf(w, id, k).key).None?
    ensures var line, lien := w.requests[id].lines[k], LienOf(w, id, k);
            && lien.receipt < |w.db.receipts|
            && (Goes(w.db, CallOf(w, id, k), g)
                <==> line.quantity == lien.remaining || line.quantity < w.db.receipts[lien.receipt].quantity)
            && (!Goes(w.db, CallOf(w, id, k), g) ==> Plan(w.db, CallOf(w, id, k)) == Err(InsufficientQuantity))
  {
    hide Goes, FindEvent, KeyUsed, SplitSuffixes, Child, Releasable;
    assert LineIsReady(w, id, k) && LeafIsHeld(w, id, k);
    ExactlyOnce.FoundIsUsed(w.db.events, CallOf(w, id, k).key);
    FreshGoes(w.db, CallOf(w, id, k), g);
  }

  lemma ReadyIsApart(w: World, id: nat, g: int)
    requires g > 0 && ReadyToApprove(w, id)
    ensures Apart(w, id)
  {
    hide Goes, FindEvent, KeyUsed, Plan, LeafIsHeld;
    forall k: nat | k < |w.requests[id].lines|
      ensures w.requests[id].lines[k].lien in w.liens && IsLineCall(CallOf(w, id, k)) && OnFile(w.db, CallOf(w, id, k))
      ensures FindEvent(w.db.events, CallOf(w, id, k).key).None?
    {
      HeldLineGoes(w, id, k, g);
    }
    forall j: nat, k: nat | j < |w.requests[id].lines| && k < |w.requests[id].lines| && j != k
      ensures KeepClear(w.db, CallOf(w, id, j), CallOf(w, id, k))
    {
      assert LineIsReady(w, id, j) && LineIsReady(w, id, k);
    }
  }

  /** Whatever the leaves weigh: an approval goes through exactly if every line takes the
      whole of its lien or less than its leaf weighs. The check on the line's own row
      promises less: a leaf that was rounded down may not cover what the row still shows. */
  lemma ApprovalSucceedsIffLeavesCover(w: World, id: nat, g: int)
    requires g > 0 && ReadyToApprove(w, id)
    ensures forall k :: 0 <= k < |w.requests[id].lines| ==>
              w.requests[id].lines[k].lien in w.liens && LienOf(w, id, k).receipt < |w.db.receipts|
    ensures StoredApproveRequest(w, id, g).verdict.Done?
       <==> forall k :: 0 <= k < |w.requests[id].lines| ==>
              || w.requests[id].lines[k].quantity == LienOf(w, id, k).remaining
              || w.requests[id].lines[k].quantity < w.db.receipts[LienOf(w, id, k).receipt].quantity
  {
    hide Goes, Apart, StoredReleaseLines, LienOf, CallOf, LeafIsHeld, ReadyToApprove, Plan, FindEvent;
    ReadyParts(w, id);
    ReadyIsApart(w, id, g);
    LoopGoesIffEachLineGoes(w, id, |w.requests[id].lines|, g);
    forall k: nat | k < |w.requests[id].lines|
      ensures w.requests[id].lines[k].lien in w.liens && LienOf(w, id, k).receipt < |w.db.receipts|
      ensures Goes(w.db, CallOf(w, id, k), g)
         <==> || w.requests[id].lines[k].quantity == LienOf(w, id, k).remaining
              || w.requests[id].lines[k].quantity < w.db.receipts[LienOf(w, id, k).receipt].quantity
    {
      HeldLineGoes(w, id, k, g);
    }
  }

  lemma ReadyParts(w: World, id: nat)
    requires ReadyToApprove(w, id)
    ensures id < |w.requests| && Releasable(w, w.requests[id].lines)
    ensures forall k :: 0 <= k < |w.requests[id].lines| ==> w.requests[id].lines[k].lien in w.liens
  {
    ReleasableLiens(w, w.requests[id].lines);
  }

  /** The line takes the whole of its lien, or less than its leaf weighs. */
  ghost predicate Covered(w: World, id: nat, k: nat)
    requires id < |w.requests| && k < |w.requests[id].lines| && w.requests[id].lines[k].lien in w.liens
    requires LienOf(w, id, k).receipt < |w.db.receipts|
  {
    || w.requests[id].lines[k].quantity == LienOf(w, id, k).remaining
    || w.requests[id].lines[k].quantity < w.db.receipts[LienOf(w, id, k).receipt].quantity
  }

  lemma UncoveredLineStops(w: World, v: World, id: nat, k: nat, g: int)
    requires g > 0 && ReadyToApprove(w, id) && k < |w.requests[id].lines| && v.requests == w.requests
    requires w.requests[id].lines[k].lien in w.liens && IsLineCall(CallOf(w, id, k))
    requires Undisturbed(w.db, v.db, CallOf(w, id, k)) && !Goes(w.db, CallOf(w, id, k), g)
    ensures StoredReleaseLine(v, id, k, w.requests[id].lines[k], LienOf(w, id, k), g)
         == Served(v, Refused(LedgerRefused(InsufficientQuantity)))
  {
    hide ReadyToApprove, Goes, Plan, StoredInvoke, FindEvent, FindKid;
    ReadyParts(w, id);
    HeldLineGoes(w, id, k, g);
    PlansAlike(w.db, v.db, CallOf(w, id, k));
    UnplannedIsRefused(v.db, CallOf(w, id, k), g);
  }

  /** The first line its leaf does not cover. */
  lemma {:induction false} FirstUncovered(w: World, id: nat, n: nat, g: int) returns (j: nat)
    requires g > 0 && id < |w.requests| && n <= |w.requests[id].lines|
    requires forall k :: 0 <= k < |w.requests[id].lines| ==> w.requests[id].lines[k].lien in w.liens
    ensures j <= n && (forall k: nat :: k < j ==> Goes(w.db, CallOf(w, id, k), g))
    ensures j < n ==> !Goes(w.db, CallOf(w, id, j), g)
  {
    hide Goes, CallOf;
    if n == 0 {
      j := 0;
    } else {
      j := FirstUncovered(w, id, n - 1, g);
      if j == n - 1 && Goes(w.db, CallOf(w, id, n - 1), g) {
        j := n;
      }
    }
  }

  lemma {:induction false} StoredRefusalSticks(w: World, snapshot: map<nat, Lien>, request: nat, m: nat, n: nat, g: int)
    requires g > 0 && request < |w.requests| && m <= n <= |w.requests[request].lines|
    requires forall k :: 0 <= k < |w.requests[request].lines| ==> w.requests[request].lines[k].lien in snapshot
    requires StoredReleaseLines(w, snapshot, request, m, g).verdict.Refused?
    ensures StoredReleaseLines(w, snapshot, request, n, g) == StoredReleaseLines(w, snapshot, request, m, g)
  {
    hide StoredReleaseLine;
    if m < n {
      StoredRefusalSticks(w, snapshot, request, m, n - 1, g);
    }
  }

  /** Whatever the leaves weigh: exactly the lines before the first one its leaf does not cover
      are carried out, and stay so; that line is refused, and the request stays pending. */
  lemma ApprovalStopsAtTheFirstUncoveredLine(w: World, id: nat, g: int) returns (j: nat)
    requires g > 0 && ReadyToApprove(w, id)
    ensures forall k :: 0 <= k < |w.requests[id].lines| ==>
              w.requests[id].lines[k].lien in w.liens && LienOf(w, id, k).receipt < |w.db.receipts|
    ensures j <= |w.requests[id].lines| && (forall k: nat :: k < j ==> Covered(w, id, k))
    ensures j < |w.requests[id].lines| ==> !Covered(w, id, j)
    ensures var s := StoredReleaseLines(w, w.liens, id, j, g);
            && s.verdict.Done? && s.world == w.(db := s.world.db, liens := s.world.liens)
            && LiensMoved(w, s.world, id, j)
            && StoredApproveRequest(w, id, g)
               == if j == |w.requests[id].lines| then Served(SetRequest(s.world, id, RequestStatus.Approved), Done)
                  else Served(s.world, Refused(LedgerRefused(InsufficientQuantity)))
  {
    hide Goes, Apart, StoredReleaseLine, LienOf, CallOf, LeafIsHeld, ReadyToApprove, Plan, FindEvent, LiensMoved,
         Undisturbed, StoredInvoke, IsLineCall;
    ReadyParts(w, id);
    ReadyIsApart(w, id, g);
    forall k: nat | k < |w.requests[id].lines|
      ensures w.requests[id].lines[k].lien in w.liens && LienOf(w, id, k).receipt < |w.db.receipts|
      ensures IsLineCall(CallOf(w, id, k)) && (Goes(w.db, CallOf(w, id, k), g) <==> Covered(w, id, k))
    {
      HeldLineGoes(w, id, k, g);
    }
    j := FirstUncovered(w, id, |w.requests[id].lines|, g);
    LoopGoesIffEachLineGoes(w, id, j, g);
    if j < |w.requests[id].lines| {
      var v := StoredReleaseLines(w, w.liens, id, j, g).world;
      UncoveredLineStops(w, v, id, j, g);
      LinesUnfold(w, id, j, g);
      StoredRefusalSticks(w, w.liens, id, j + 1, |w.requests[id].lines|, g);
    }
  }

  lemma LinesUnfold(w: World, id: nat, j: nat, g: int)
    requires g > 0 && id < |w.requests| && j < |w.requests[id].lines|
    requires forall k :: 0 <= k < |w.requests[id].lines| ==> w.requests[id].lines[k].lien in w.liens
    requires StoredReleaseLines(w, w.liens, id, j, g).verdict.Done?
    ensures StoredReleaseLines(w, w.liens, id, j + 1, g)
         == StoredReleaseLine(StoredReleaseLines(w, w.liens, id, j, g).world, id, j, w.requests[id].lines[j],
                              LienOf(w, id, j), g)
  {
    hide StoredReleaseLine;
  }

  // ----- The books of the liens ---------------------------------------------

  /** A lien never force-released accounts for all it was granted. */
  ghost predicate Booked(w: World, l: nat)
    requires l in w.liens
  {
    !w.liens[l].forced ==> w.liens[l].quantity == w.liens[l].remaining + AskedOf(w.requests, RequestStatus.Approved, l)
  }

  ghost predicate BooksHold(w: World) {
    forall l :: l in w.liens ==> Booked(w, l)
  }

  lemma WholeApprovalBooks(w: World, v: World, id: nat)
    requires id < |w.requests| && w.requests[id].status.Pending? && DistinctLiens(w.requests[id].lines)
    requires BooksHold(w) && LiensMoved(w, v, id, |w.requests[id].lines|)
    requires v.requests == w.requests[id := w.requests[id].(status := RequestStatus.Approved)]
    ensures BooksHold(v)
  {
    hide AskedOf, LineSum;
    var lines := w.requests[id].lines;
    forall l | l in v.liens
      ensures Booked(v, l)
    {
      assert Booked(w, l);
      AskedSet(w.requests, id, v.requests[id], RequestStatus.Approved, l);
      if k :| 0 <= k < |lines| && lines[k].lien == l {
        LineSumDistinct(lines, k);
        assert LessItsLine(w.liens[l], lines[k], v.liens[l]);
      } else {
        LineSumAbsent(lines, l);
      }
    }
  }

  lemma HalfApprovalBooks(w: World, v: World, id: nat, j: nat, g: int)
    requires g > 0 && ReadyToApprove(w, id) && BooksHold(w) && LiensFit(w.liens) && j <= |w.requests[id].lines|
    requires LiensMoved(w, v, id, j) && v.requests == w.requests
    ensures BooksHold(v) <==> j == 0
  {
    hide AskedOf, KeyUsed;
    if j == 0 {
      forall l | l in v.liens
        ensures Booked(v, l)
      {
        assert Booked(w, l);
      }
    } else {
      var line := w.requests[id].lines[0];
      assert LineIsReady(w, id, 0) && LineReleasable(w, line);
      assert LessItsLine(w.liens[line.lien], line, v.liens[line.lien]);
      assert LienFits(w.liens[line.lien]) && Booked(w, line.lien);
      assert !Booked(v, line.lien);
    }
  }

  /** An approval leaves the books of the liens in order exactly if every line was carried out or
      the very first was refused: otherwise what its first lines took is booked nowhere. */
  lemma BooksHoldUnlessStoppedHalfWay(w: World, id: nat, g: int) returns (j: nat)
    requires g > 0 && ReadyToApprove(w, id) && w.requests[id].status.Pending? && BooksHold(w) && LiensFit(w.liens)
    ensures forall k :: 0 <= k < |w.requests[id].lines| ==>
              w.requests[id].lines[k].lien in w.liens && LienOf(w, id, k).receipt < |w.db.receipts|
    ensures j <= |w.requests[id].lines| && (forall k: nat :: k < j ==> Covered(w, id, k))
    ensures j < |w.requests[id].lines| ==> !Covered(w, id, j)
    ensures BooksHold(StoredApproveRequest(w, id, g).world) <==> j == 0 || j == |w.requests[id].lines|
  {
    j := ApprovalStopsAtTheFirstUncoveredLine(w, id, g);
    hide BooksHold, LiensMoved, LiensFit, StoredApproveRequest, StoredReleaseLines, Covered, LineIsReady, LeafIsHeld;
    var s := StoredReleaseLines(w, w.liens, id, j, g).world;
    if j == |w.requests[id].lines| {
      WholeApprovalBooks(w, SetRequest(s, id, RequestStatus.Approved), id) by {
        SameLiensMoved(w, s, SetRequest(s, id, RequestStatus.Approved), id, j);
      }
    } else {
      HalfApprovalBooks(w, s, id, j, g);
    }
  }

  lemma SameLiensMoved(w: World, v: World, u: World, id: nat, n: nat)
    requires id < |w.requests| && n <= |w.requests[id].lines| && LiensMoved(w, v, id, n) && u.liens == v.liens
    ensures LiensMoved(w, u, id, n)
  {
  }
}
