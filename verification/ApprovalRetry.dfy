/** What approving again does once lines had been completed: it is refused by its own
    check, or it goes through and takes every completed line off its lien a second time.
    Which of the two can be read off the liens before the first approval. */
module ApprovalRetry {
  import opened InventoryTypes
  import opened Ledger
  import opened LedgerInvariant
  import opened Conservation
  import ExactlyOnce
  import opened Tables
  import opened Services
  import opened Coupling
  import opened Stability
  import opened ApprovalLoop
  import opened Reachable
  import opened CrashRetry
  import opened ApprovalCrash
  import opened Decimals
  import opened DecimalServices
  import opened LineByLine
  import opened StoppedCreates

  // ----- The parts still held name the event that released the rest ---------

  /** The event on file under `key` minted `leaf`, and nothing else that is held. */
  ghost predicate Filed(db: Db, key: Key, leaf: nat) {
    && FindEvent(db.events, key).Some?
    && var e := FindEvent(db.events, key).value;
       && leaf < |db.receipts| && db.receipts[leaf].sourceEvent == Some(e) && db.receipts[leaf].status == HELD_LIEN
       && forall i :: 0 <= i < |db.receipts| ==>
            db.receipts[i].sourceEvent == Some(e) && db.receipts[i].status in HELD ==> i == leaf
  }

  lemma FiledStays(before: Db, after: Db, call: Call, key: Key, leaf: nat)
    requires IsLineCall(call) && Filed(before, key, leaf) && Steps(before, after, call)
    requires call.key != key && call.op.receipt != leaf
    requires after != before ==> call.op.receipt < |after.receipts| && after.receipts[call.op.receipt].status !in HELD
    ensures Filed(after, key, leaf)
  {
    hide FindEvent;
    if after != before {
      KeyStaysFound(before.events, after.events[|before.events|], key);
    }
  }

  lemma FreshIsFiled(db: Db, call: Call)
    requires Sound(db) && call.op.ReleasePartial? && Plan(db, call).Ok?
    requires forall key :: Uses(call, key) ==> !KeyUsed(db.events, key)
    ensures Filed(Invoke(db, call).db, call.key, |db.receipts| + 1)
  {
    hide Plan, Invoke, FreshReply, KeyUsed, Uses, Lineage, StatusRules, EventsFit, SharedBases, FindEvent;
    var after, n := Invoke(db, call).db, |db.receipts|;
    UnusedKeyCommits(db, call);
    CommittedEvent(db, call);
    CallAgesRows(db, call);
    PartialKidNamesItsEvent(db, call);
    PartialKids(db, call);
    var kids := NewRows(Plan(db, call).value.change);
    assert after.receipts[n] == kids[0] && after.receipts[n + 1] == kids[1];
    forall i: nat | i < n
      ensures after.receipts[i].sourceEvent != Some(|db.events|)
    {
      assert SourcedAt(db, i);
      assert Ages(db.receipts[i], after.receipts[i]);
    }
  }

  lemma ExactAtOne(db: Db, call: Call)
    ensures StoredInvoke(db, call, 1) == Invoke(db, call)
  {
    hide Invoke, StoredInvoke, WholeCall;
    assert WholeCall(call, 1) by { OneDivides(call); }
    WholeCallIsExact(db, call, 1);
  }

  lemma OneDivides(call: Call)
    ensures WholeCall(call, 1)
  {
  }

  /** The partial lines among the first `n` are on file. */
  ghost predicate PartialsFiled(w: World, v: World, id: nat, n: nat)
    requires id < |w.requests| && n <= |w.requests[id].lines|
    requires forall k :: 0 <= k < |w.requests[id].lines| ==> w.requests[id].lines[k].lien in w.liens
  {
    forall k: nat {:trigger KeyOf(w, id, k)} ::
      k < n && w.requests[id].lines[k].quantity < LienOf(w, id, k).remaining ==>
      && w.requests[id].lines[k].lien in v.liens
      && Filed(v.db, KeyOf(w, id, k), v.liens[w.requests[id].lines[k].lien].receipt)
  }

  /** Two live liens of a coupled world hold different leaves. */
  lemma LeavesDiffer(v: World, l: nat, m: nat)
    requires Coupled(v) && l in v.liens && m in v.liens && l != m && Live(v.liens[l]) && Live(v.liens[m])
    ensures v.liens[l].receipt < |v.db.receipts| && v.db.receipts[v.liens[l].receipt].status == HELD_LIEN
    ensures v.liens[l].receipt != v.liens[m].receipt
  {
    hide Claimed;
    assert StakeOf(v, Claim(LienClaim, l)).Some? && StakeOf(v, Claim(LienClaim, m)).Some?;
  }

  /** The line about to run holds another leaf than a partial line before it. */
  lemma PastLeaf(w: World, v: World, id: nat, k: nat, n: nat)
    requires Approvable(w, id) && k < n < |w.requests[id].lines| && DistinctLiens(w.requests[id].lines)
    requires forall k :: 0 <= k < |w.requests[id].lines| ==> w.requests[id].lines[k].lien in w.liens
    requires LiensMoved(w, v, id, n) && Coupled(v) && w.requests[id].lines[k].quantity < LienOf(w, id, k).remaining
    ensures w.requests[id].lines[k].lien in v.liens
    ensures v.liens[w.requests[id].lines[k].lien].receipt != LienOf(w, id, n).receipt
  {
    hide Sound, KeyUsed, Coupled, LineIsReady;
    var l, other := w.requests[id].lines[k].lien, w.requests[id].lines[n].lien;
    assert LessItsLine(w.liens[l], w.requests[id].lines[k], v.liens[l]);
    assert LineReleasable(w, w.requests[id].lines[n]);
    LeavesDiffer(v, l, other);
  }

  lemma LineEndsItsLeaf(w: World, v: World, id: nat, n: nat)
    requires Approvable(w, id) && n < |w.requests[id].lines| && Progress(w, v, id, n)
    requires forall j :: 0 <= j < n ==> w.requests[id].lines[j].lien != w.requests[id].lines[n].lien
    ensures w.requests[id].lines[n].lien in w.liens
    ensures var at, after := LienOf(w, id, n).receipt, Invoke(v.db, CallOf(w, id, n)).db.receipts;
            at < |after| && after[at].status !in HELD
  {
    hide Approvable, Progress, Invoke;
    LineMovesRows(w, v, id, n);
  }

  lemma FiledPastLine(w: World, v: World, u: World, id: nat, k: nat, n: nat)
    requires Approvable(w, id) && k < n < |w.requests[id].lines| && DistinctLiens(w.requests[id].lines)
    requires forall k :: 0 <= k < |w.requests[id].lines| ==> w.requests[id].lines[k].lien in w.liens
    requires Progress(w, v, id, n) && w.requests[id].lines[k].quantity < LienOf(w, id, k).remaining
    requires w.requests[id].lines[k].lien in v.liens
    requires Filed(v.db, KeyOf(w, id, k), v.liens[w.requests[id].lines[k].lien].receipt)
    requires u.db == Invoke(v.db, CallOf(w, id, n)).db
    ensures Filed(u.db, KeyOf(w, id, k), v.liens[w.requests[id].lines[k].lien].receipt)
  {
    PastLeaf(w, v, id, k, n);
    LineEndsItsLeaf(w, v, id, n);
    hide Approvable, Progress, Invoke, Filed, Steps;
    var call := CallOf(w, id, n);
    ExactAtOne(v.db, call);
    LineSteps(v.db, call, 1);
    FiledStays(v.db, u.db, call, KeyOf(w, id, k), v.liens[w.requests[id].lines[k].lien].receipt);
  }

  /** What line `n` does to the ledger and to its lien. */
  lemma LineOutcome(w: World, v: World, id: nat, n: nat)
    requires Approvable(w, id) && n < |w.requests[id].lines| && Progress(w, v, id, n)
    requires forall j :: 0 <= j < n ==> w.requests[id].lines[j].lien != w.requests[id].lines[n].lien
    ensures w.requests[id].lines[n].lien in w.liens && IsLineCall(CallOf(w, id, n)) && v.requests == w.requests
    ensures var line, call := w.requests[id].lines[n], CallOf(w, id, n);
            var u := ReleaseLine(v, id, n, line, LienOf(w, id, n)).world;
            && Sound(v.db) && Plan(v.db, call).Ok? && !KeyUsed(v.db.events, call.key)
            && u.db == Invoke(v.db, call).db
            && u.liens == v.liens[line.lien := LienAfter(LienOf(w, id, n), line, |v.db.receipts|)]
  {
    hide Approvable, Plan, Invoke, KeyUsed, ReleaseLine, Sound, Coupled, RowsAged, LiensMoved, TreesAside, LeavesGone;
    LineCommits(w, v, id, n);
    LineKeyUnused(w, v, id, n);
  }

  lemma LineIsFiled(w: World, v: World, id: nat, n: nat)
    requires id < |w.requests| && Approvable(w, id) && n < |w.requests[id].lines| && DistinctLiens(w.requests[id].lines)
    requires forall k :: 0 <= k < |w.requests[id].lines| ==> w.requests[id].lines[k].lien in w.liens
    requires Progress(w, v, id, n) && PartialsFiled(w, v, id, n)
    ensures PartialsFiled(w, ReleaseLine(v, id, n, w.requests[id].lines[n], LienOf(w, id, n)).world, id, n + 1)
  {
    hide Approvable, Progress, Sound, Plan, Invoke, KeyUsed, Filed, ReleaseLine, Uses;
    LineOutcome(w, v, id, n);
    var lines, call := w.requests[id].lines, CallOf(w, id, n);
    var u := ReleaseLine(v, id, n, lines[n], LienOf(w, id, n)).world;
    OnlyItsKey(call);
    if call.op.ReleasePartial? {
      FreshIsFiled(v.db, call);
    }
    forall k: nat | k < n && lines[k].quantity < LienOf(w, id, k).remaining
      ensures lines[k].lien in v.liens && Filed(u.db, KeyOf(w, id, k), v.liens[lines[k].lien].receipt)
    {
      assert Filed(v.db, KeyOf(w, id, k), v.liens[lines[k].lien].receipt);
      FiledPastLine(w, v, u, id, k, n);
    }
  }

  lemma OnlyItsKey(call: Call)
    requires IsLineCall(call)
    ensures forall key :: Uses(call, key) <==> key == call.key
  {
  }

  lemma {:induction false} LoopFilesPartials(w: World, id: nat, n: nat)
    requires id < |w.requests| && Approvable(w, id) && n <= |w.requests[id].lines|
    requires DistinctLiens(w.requests[id].lines)
    requires forall k :: 0 <= k < |w.requests[id].lines| ==> w.requests[id].lines[k].lien in w.liens
    ensures PartialsFiled(w, ReleaseLines(w, w.liens, id, n).world, id, n)
  {
    hide Approvable, Progress, ReleaseLine, Filed, KeyOf;
    if n > 0 {
      LoopFilesPartials(w, id, n - 1);
      FirstLinesAreDistinct(w.requests[id].lines, n - 1);
      DistinctLinesProgress(w, id, n - 1);
      LineIsFiled(w, ReleaseLines(w, w.liens, id, n - 1).world, id, n - 1);
    }
  }

  lemma FirstLinesAreDistinct(lines: seq<Line>, n: nat)
    requires DistinctLiens(lines) && n <= |lines|
    ensures DistinctLiens(lines[..n])
  {
  }

  // ----- The lines of the retry --------------------------------------------

  /** The state the retry's loop starts from, if no ledger call is half done: `j` lines
      carried out, and the checks of the retry passed. */
  ghost predicate Resumable(w: World, v: World, id: nat, j: nat)
  {
    && Approvable(w, id) && j <= |w.requests[id].lines| && DistinctLiens(w.requests[id].lines)
    && (forall k :: 0 <= k < |w.requests[id].lines| ==> w.requests[id].lines[k].lien in w.liens)
    && Progress(w, v, id, j) && PartialsFiled(w, v, id, j)
    && Releasable(v, w.requests[id].lines)
  }

  lemma ResumedLeaf(w: World, v: World, id: nat, j: nat, k: nat)
    requires Resumable(w, v, id, j) && k < |w.requests[id].lines|
    ensures w.requests[id].lines[k].lien in v.liens && Live(LienOf(v, id, k))
    ensures 0 < w.requests[id].lines[k].quantity <= LienOf(v, id, k).remaining
    ensures LienOf(v, id, k).receipt < |v.db.receipts|
    ensures var r := v.db.receipts[LienOf(v, id, k).receipt];
            && r.status == HELD_LIEN && r.txnId == Some(Uuid(w.requests[id].lines[k].lien))
            && r.quantity == LienOf(v, id, k).remaining && r.tenant == w.requests[id].tenant
  {
    hide Sound, KeyUsed, RowsAged, TreesAside, LeavesGone, KeysSpent, PartialsFiled, Claimed;
    var l := w.requests[id].lines[k].lien;
    assert LineReleasable(v, w.requests[id].lines[k]) && LineIsReady(w, id, k);
    assert v.liens[l].tenant == w.liens[l].tenant by { TenantMoves(w, v, id, j, l); }
    assert StakeOf(v, Claim(LienClaim, l)).Some?;
  }

  lemma TenantMoves(w: World, v: World, id: nat, n: nat, l: nat)
    requires id < |w.requests| && n <= |w.requests[id].lines| && LiensMoved(w, v, id, n) && l in w.liens
    ensures l in v.liens && v.liens[l].tenant == w.liens[l].tenant
  {
  }

  /** A line carried out before the stop: what is left of its lien, and which of its keys is used. */
  lemma ResumedBefore(w: World, v: World, id: nat, j: nat, k: nat)
    requires Resumable(w, v, id, j) && k < j
    ensures w.requests[id].lines[k].lien in v.liens
    ensures LienOf(v, id, k).remaining == LienOf(w, id, k).remaining - w.requests[id].lines[k].quantity
    ensures Filed(v.db, LineKey(PartialWord, id, k), LienOf(v, id, k).receipt)
    ensures !KeyUsed(v.db.events, LineKey(FullWord, id, k))
  {
    ResumedLeaf(w, v, id, j, k);
    hide Sound, Coupled, KeyUsed, RowsAged, TreesAside, LeavesGone, Filed;
    assert LineIsReady(w, id, k);
    var l := w.requests[id].lines[k].lien;
    assert LessItsLine(w.liens[l], w.requests[id].lines[k], v.liens[l]);
    assert KeyOf(w, id, k) == LineKey(PartialWord, id, k);
    NotSpent(w, v, id, j, LineKey(FullWord, id, k));
  }

  lemma NotSpent(w: World, v: World, id: nat, j: nat, key: Key)
    requires Approvable(w, id) && j <= |w.requests[id].lines| && KeysSpent(w, v, id, j)
    requires !KeyUsed(w.db.events, key)
    requires forall k: nat {:trigger KeyOf(w, id, k)} :: k < j ==>
               w.requests[id].lines[k].lien in w.liens && key != KeyOf(w, id, k)
    ensures !KeyUsed(v.db.events, key)
  {
    hide Approvable, KeyUsed;
  }

  lemma ResumedAfter(w: World, v: World, id: nat, j: nat, k: nat)
    requires Resumable(w, v, id, j) && j <= k < |w.requests[id].lines|
    ensures w.requests[id].lines[k].lien in v.liens && LienOf(v, id, k) == LienOf(w, id, k)
    ensures !KeyUsed(v.db.events, LineKey(FullWord, id, k)) && !KeyUsed(v.db.events, LineKey(PartialWord, id, k))
  {
    hide Sound, Coupled, KeyUsed, RowsAged, TreesAside, LeavesGone, Filed;
    assert LineIsReady(w, id, k);
    NotSpent(w, v, id, j, LineKey(FullWord, id, k));
    NotSpent(w, v, id, j, LineKey(PartialWord, id, k));
  }

  /** Every line of the retry, run alone, goes through: a completed line is answered from
      its event, or releases under its other key what is left. */
  lemma ResumedLineGoes(w: World, v: World, id: nat, j: nat, k: nat)
    requires Resumable(w, v, id, j) && k < |w.requests[id].lines|
    ensures w.requests[id].lines[k].lien in v.liens && IsLineCall(CallOf(v, id, k)) && Goes(v.db, CallOf(v, id, k), 1)
  {
    hide Goes, Plan, FindEvent, FindKid, KeyUsed, Approvable, Progress, PartialsFiled, Releasable;
    ResumedLeaf(w, v, id, j, k);
    SameRequests(w, v, id, j);
    var call, lien := CallOf(v, id, k), LienOf(v, id, k);
    ExactlyOnce.FoundIsUsed(v.db.events, call.key);
    LineCallPlans(v.db, call, lien.remaining);
    if k < j {
      ResumedBefore(w, v, id, j, k);
      if call.op.ReleasePartial? {
        ReplayGoes(v.db, call, 1);
      } else {
        FreshGoes(v.db, call, 1);
      }
    } else {
      ResumedAfter(w, v, id, j, k);
      FreshGoes(v.db, call, 1);
    }
  }

  lemma SameRequests(w: World, v: World, id: nat, j: nat)
    requires Resumable(w, v, id, j)
    ensures v.requests == w.requests && Sound(v.db) && id < |v.requests| && DistinctLiens(v.requests[id].lines)
  {
    hide Sound, Coupled, RowsAged, KeysSpent, TreesAside, LeavesGone;
  }

  lemma ResumedOnFile(w: World, v: World, id: nat, j: nat, k: nat)
    requires Resumable(w, v, id, j) && k < |w.requests[id].lines|
    ensures v.requests == w.requests && w.requests[id].lines[k].lien in v.liens
    ensures OnFile(v.db, CallOf(v, id, k))
  {
    hide FindEvent, Approvable, Progress, PartialsFiled, Releasable, Sound;
    ResumedLeaf(w, v, id, j, k);
    SameRequests(w, v, id, j);
    var found := FindEvent(v.db.events, CallOf(v, id, k).key);
    if found.Some? {
      SoundEventFits(v.db, found.value);
    }
  }

  lemma ResumedKeepClear(w: World, v: World, id: nat, j: nat, i: nat, k: nat)
    requires Resumable(w, v, id, j) && i < |w.requests[id].lines| && k < |w.requests[id].lines| && i != k
    ensures v.requests == w.requests && w.requests[id].lines[i].lien in v.liens
    ensures w.requests[id].lines[k].lien in v.liens
    ensures KeepClear(v.db, CallOf(v, id, i), CallOf(v, id, k))
  {
    hide Plan, FindEvent, FindKid, KeyUsed, Approvable, Progress, PartialsFiled, Releasable, Sound;
    ResumedLeaf(w, v, id, j, i);
    ResumedLeaf(w, v, id, j, k);
    SameRequests(w, v, id, j);
    ExactlyOnce.FoundIsUsed(v.db.events, CallOf(v, id, i).key);
    if i < j {
      ResumedBefore(w, v, id, j, i);
    } else {
      ResumedAfter(w, v, id, j, i);
    }
  }

  lemma ResumedIsApart(w: World, v: World, id: nat, j: nat)
    requires Resumable(w, v, id, j)
    ensures Apart(v, id)
    ensures forall k: nat {:trigger CallOf(v, id, k)} :: k < |v.requests[id].lines| ==> Goes(v.db, CallOf(v, id, k), 1)
  {
    hide Resumable, Goes, KeepClear, OnFile, IsLineCall;
    SameRequests(w, v, id, j);
    var lines := v.requests[id].lines;
    forall k: nat | k < |lines|
      ensures lines[k].lien in v.liens && IsLineCall(CallOf(v, id, k)) && OnFile(v.db, CallOf(v, id, k))
      ensures Goes(v.db, CallOf(v, id, k), 1)
    {
      ResumedLineGoes(w, v, id, j, k);
      ResumedOnFile(w, v, id, j, k);
    }
    forall i: nat, k: nat | i < |lines| && k < |lines| && i != k
      ensures KeepClear(v.db, CallOf(v, id, i), CallOf(v, id, k))
    {
      ResumedKeepClear(w, v, id, j, i, k);
    }
  }

  // ----- A line whose ledger call is on file --------------------------------

  lemma HalfLineGoes(db: Db, call: Call)
    requires Sound(db) && IsLineCall(call) && Plan(db, call).Ok? && !KeyUsed(db.events, call.key)
    ensures var after := Invoke(db, call).db;
            && Goes(after, call, 1)
            && FindEvent(after.events, call.key) == Some(|db.events|) && |db.events| < |after.events|
            && after.events[|db.events|].from == call.op.receipt
  {
    hide Sound, Plan, KeyUsed, FindEvent, FindKid, Invoke, Uses;
    OnlyItsKey(call);
    CommittedEvent(db, call);
    RepliesAgain(db, call);
    ExactAtOne(Invoke(db, call).db, call);
    if call.op.ReleasePartial? {
      PartialRepliesAlike(db, call);
    }
  }

  lemma OtherLineAfterHalf(v: World, m: World, id: nat, j: nat, k: nat)
    requires Apart(v, id) && j < |v.requests[id].lines| && k < |v.requests[id].lines| && j != k
    requires m == v.(db := Invoke(v.db, CallOf(v, id, j)).db)
    ensures IsLineCall(CallOf(m, id, k)) && OnFile(m.db, CallOf(m, id, k))
    ensures Goes(m.db, CallOf(m, id, k), 1) <==> Goes(v.db, CallOf(v, id, k), 1)
    ensures FindEvent(m.db.events, CallOf(m, id, k).key) == FindEvent(v.db.events, CallOf(v, id, k).key)
  {
    hide Invoke, FindEvent, FindKid, Goes, Steps, StoredInvoke;
    var mine, other := CallOf(v, id, k), CallOf(v, id, j);
    AreLineCalls(v, id);
    assert OnFile(v.db, mine) && OnFile(v.db, other) && KeepClear(v.db, mine, other);
    assert CallOf(m, id, k) == mine;
    hide Apart, CallOf, KeepClear;
    ExactAtOne(v.db, other);
    LineSteps(v.db, other, 1);
    StaysUndisturbed(v.db, v.db, m.db, mine, other);
    UndisturbedGoes(v.db, m.db, mine, 1);
  }

  lemma HalfLineIsApart(v: World, m: World, id: nat, j: nat)
    requires Apart(v, id) && j < |v.requests[id].lines| && Sound(v.db)
    requires m == v.(db := Invoke(v.db, CallOf(v, id, j)).db)
    requires Plan(v.db, CallOf(v, id, j)).Ok? && !KeyUsed(v.db.events, CallOf(v, id, j).key)
    requires forall k: nat {:trigger CallOf(v, id, k)} :: k < |v.requests[id].lines| ==> Goes(v.db, CallOf(v, id, k), 1)
    ensures Apart(m, id)
    ensures forall k: nat {:trigger CallOf(m, id, k)} :: k < |m.requests[id].lines| ==> Goes(m.db, CallOf(m, id, k), 1)
  {
    hide Invoke, FindEvent, FindKid, Goes, Plan, KeyUsed, StoredInvoke, Lineage, StatusRules, EventsFit, SharedBases;
    var lines, half := v.requests[id].lines, CallOf(v, id, j);
    AreLineCalls(v, id);
    AreLineCalls(m, id);
    assert forall k: nat {:trigger CallOf(m, id, k)} :: k < |lines| ==> CallOf(m, id, k) == CallOf(v, id, k);
    HalfLineGoes(v.db, half);
    ExactAtOne(v.db, half);
    LineSteps(v.db, half, 1);
    hide CallOf;
    forall k: nat | k < |lines|
      ensures OnFile(m.db, CallOf(m, id, k)) && Goes(m.db, CallOf(m, id, k), 1)
    {
      assert OnFile(v.db, CallOf(v, id, k));
      if k != j {
        OtherLineAfterHalf(v, m, id, j, k);
      }
    }
    forall i: nat, k: nat | i < |lines| && k < |lines| && i != k
      ensures KeepClear(m.db, CallOf(m, id, i), CallOf(m, id, k))
    {
      assert KeepClear(v.db, CallOf(v, id, i), CallOf(v, id, k));
      assert SourcedAt(v.db, CallOf(v, id, k).op.receipt);
      if i != j {
        OtherLineAfterHalf(v, m, id, j, i);
      }
    }
  }

  // ----- The retry ----------------------------------------------------------

  /** Every completed line asked for at most half of what its lien had left. */
  ghost predicate AtMostHalf(w: World, id: nat, j: nat)
    requires id < |w.requests| && j <= |w.requests[id].lines|
    requires forall k :: 0 <= k < |w.requests[id].lines| ==> w.requests[id].lines[k].lien in w.liens
  {
    forall k :: 0 <= k < j ==> 2 * w.requests[id].lines[k].quantity <= w.liens[w.requests[id].lines[k].lien].remaining
  }

  /** Which completed lines the retry's own check lets through. */
  lemma ReleasableAgain(w: World, v: World, id: nat, j: nat)
    requires id < |w.requests| && j <= |w.requests[id].lines| && DistinctLiens(w.requests[id].lines)
    requires Releasable(w, w.requests[id].lines) && LiensMoved(w, v, id, j)
    requires forall k :: 0 <= k < |w.requests[id].lines| ==>
               w.requests[id].lines[k].lien in w.liens && w.requests[id].lines[k].quantity > 0
    ensures Releasable(v, w.requests[id].lines) <==> AtMostHalf(w, id, j)
  {
    var lines := w.requests[id].lines;
    forall k | 0 <= k < |lines|
      ensures LineReleasable(v, lines[k]) <==> (k < j ==> 2 * lines[k].quantity <= w.liens[lines[k].lien].remaining)
    {
      assert LineReleasable(w, lines[k]);
      if k < j {
        assert LessItsLine(w.liens[lines[k].lien], lines[k], v.liens[lines[k].lien]);
      }
    }
  }

  /** The loop of the retry goes through, and takes each line off what it finds. */
  lemma RetryGoes(w: World, v: World, id: nat, j: nat, mid: bool)
    requires Resumable(w, v, id, j) && v == ReleaseLines(w, w.liens, id, j).world
    ensures id < |w.requests| && forall k :: 0 <= k < |w.requests[id].lines| ==> w.requests[id].lines[k].lien in w.liens
    ensures var m := StoppedAt(w, id, j, mid);
            && m.requests == w.requests && m.liens == v.liens
            && (forall k :: 0 <= k < |w.requests[id].lines| ==> w.requests[id].lines[k].lien in m.liens)
            && var s := ReleaseLines(m, m.liens, id, |w.requests[id].lines|);
               s.verdict.Done? && TakenOff(m, s.world, id, |w.requests[id].lines|)
  {
    hide Invoke, Goes, Plan, KeyUsed, Apart, TakenOff, Approvable, Progress, PartialsFiled, Sound;
    SameRequests(w, v, id, j);
    ResumedIsApart(w, v, id, j);
    var m, n := StoppedAt(w, id, j, mid), |w.requests[id].lines|;
    if mid && j < n {
      ResumedLeaf(w, v, id, j, j);
      ResumedAfter(w, v, id, j, j);
      assert CallOf(w, id, j) == CallOf(v, id, j);
      LineCallPlans(v.db, CallOf(v, id, j), LienOf(v, id, j).remaining);
      HalfLineIsApart(v, m, id, j);
    }
    hide ReleaseLines, StoppedAt, Resumable;
    LoopGoesIffEachLineGoes(m, id, n, 1);
    ApartLiens(m, id);
    WholeAtOne(m, id);
    LinesAreExact(m, m.liens, id, n, 1);
  }

  lemma ApartLiens(m: World, id: nat)
    requires Apart(m, id)
    ensures id < |m.requests| && forall k :: 0 <= k < |m.requests[id].lines| ==> m.requests[id].lines[k].lien in m.liens
  {
  }

  lemma WholeAtOne(m: World, id: nat)
    requires id < |m.requests|
    ensures WholeRows(m.db.receipts, 1) && WholeLines(m.requests[id].lines, 1)
  {
  }

  lemma StopIsResumable(w: World, id: nat, j: nat)
    requires id < |w.requests| && Approvable(w, id) && j <= |w.requests[id].lines|
    requires DistinctLiens(w.requests[id].lines)
    requires forall k :: 0 <= k < |w.requests[id].lines| ==> w.requests[id].lines[k].lien in w.liens
    ensures var v := ReleaseLines(w, w.liens, id, j).world;
            && v.requests == w.requests && LiensMoved(w, v, id, j)
            && (Releasable(v, w.requests[id].lines) ==> Resumable(w, v, id, j))
  {
    hide Approvable, ReleaseLines, Releasable, PartialsFiled, Sound, Coupled, RowsAged, KeysSpent, TreesAside,
         LeavesGone, LiensMoved;
    FirstLinesAreDistinct(w.requests[id].lines, j);
    DistinctLinesProgress(w, id, j);
    LoopFilesPartials(w, id, j);
  }

  lemma StoppedTables(w: World, id: nat, j: nat, mid: bool)
    requires id < |w.requests| && j <= |w.requests[id].lines|
    requires forall k :: 0 <= k < |w.requests[id].lines| ==> w.requests[id].lines[k].lien in w.liens
    ensures var m, v := StoppedAt(w, id, j, mid), ReleaseLines(w, w.liens, id, j).world;
            m.requests == v.requests == w.requests && m.liens == v.liens
  {
    hide Invoke;
  }

  lemma GateSays(w: World, a: Action)
    requires a.ApproveReleaseRequest? && GateOf(w, a).Proceed?
    ensures a.id < |w.requests| && w.requests[a.id].status.Pending? && Releasable(w, w.requests[a.id].lines)
  {
    hide Releasable;
  }

  lemma GateOfTheRetry(w: World, v: World, m: World, a: Action)
    requires a.ApproveReleaseRequest? && GateOf(w, a).Proceed? && m.requests == w.requests && m.liens == v.liens
    ensures GateOf(m, a) == if Releasable(v, w.requests[a.id].lines) then Proceed else Stop(BadRequest)
  {
    forall k | 0 <= k < |w.requests[a.id].lines|
      ensures LineReleasable(m, w.requests[a.id].lines[k]) == LineReleasable(v, w.requests[a.id].lines[k])
    {
    }
    assert Releasable(m, w.requests[a.id].lines) == Releasable(v, w.requests[a.id].lines);
    hide Releasable;
  }

  lemma RetryApproves(m: World, a: Action)
    requires a.ApproveReleaseRequest? && GateOf(m, a).Proceed?
    requires forall k :: 0 <= k < |m.requests[a.id].lines| ==> m.requests[a.id].lines[k].lien in m.liens
    requires ReleaseLines(m, m.liens, a.id, |m.requests[a.id].lines|).verdict.Done?
    ensures Perform(m, a)
         == Served(SetRequest(ReleaseLines(m, m.liens, a.id, |m.requests[a.id].lines|).world, a.id,
                              RequestStatus.Approved), Done)
  {
    hide GateOf, Releasable, ReleaseLines;
    GateSays(m, a);
  }

  /** The first `j` lines are off their liens twice, the others once. */
  ghost predicate DeductedTwice(w: World, u: World, id: nat, j: nat)
    requires id < |w.requests| && j <= |w.requests[id].lines|
    requires forall k :: 0 <= k < |w.requests[id].lines| ==> w.requests[id].lines[k].lien in w.liens
  {
    forall k :: 0 <= k < |w.requests[id].lines| ==>
      var line := w.requests[id].lines[k];
      && line.quantity > 0 && line.lien in u.liens
      && u.liens[line.lien].remaining
         == w.liens[line.lien].remaining - (if k < j then 2 * line.quantity else line.quantity)
  }

  /** The sum of what the first approval and the retry took. */
  lemma TakenTwice(w: World, v: World, m: World, u: World, id: nat, j: nat, requests: seq<Request>)
    requires id < |w.requests| && j <= |w.requests[id].lines| && DistinctLiens(w.requests[id].lines)
    requires forall k :: 0 <= k < |w.requests[id].lines| ==> w.requests[id].lines[k].lien in w.liens
    requires LiensMoved(w, v, id, j) && m.requests == w.requests && m.liens == v.liens
    requires TakenOff(m, u, id, |w.requests[id].lines|)
    requires forall k :: 0 <= k < |w.requests[id].lines| ==> w.requests[id].lines[k].quantity > 0
    ensures DeductedTwice(w, u.(requests := requests), id, j)
  {
    var lines := w.requests[id].lines;
    forall k | 0 <= k < |lines|
      ensures lines[k].lien in u.liens
      ensures u.liens[lines[k].lien].remaining
           == w.liens[lines[k].lien].remaining - (if k < j then 2 * lines[k].quantity else lines[k].quantity)
    {
      if k < j {
        assert LessItsLine(w.liens[lines[k].lien], lines[k], v.liens[lines[k].lien]);
      }
    }
  }

  /** Approving again after `j` completed lines: the retry is refused by its own check,
      and changes nothing, unless every completed line asked for at most half of what its
      lien had left. Then it goes through, and takes every completed line off its lien
      twice. */
  lemma RetryIsRefusedOrDeductsTwice(w: World, a: Action, j: nat, mid: bool)
    requires Healthy(w) && a.ApproveReleaseRequest? && GateOf(w, a).Proceed? && j <= |w.requests[a.id].lines|
    ensures forall k :: 0 <= k < |w.requests[a.id].lines| ==> w.requests[a.id].lines[k].lien in w.liens
    ensures var m := StoppedAt(w, a.id, j, mid);
            && (Perform(m, a).verdict.Done? <==> AtMostHalf(w, a.id, j))
            && (Perform(m, a).verdict.Refused? ==> Perform(m, a) == Served(m, Refused(BadRequest)))
            && (Perform(m, a).verdict.Done? ==> DeductedTwice(w, Perform(m, a).world, a.id, j))
  {
    hide Healthy, Approvable, StoppedAt, Releasable, Perform, Resumable, TakenOff, ReleaseLines, LiensMoved, GateOf,
         AtMostHalf, DeductedTwice;
    GateSays(w, a);
    PendingIsApprovable(w, a.id);
    FitsAtApproval(w, a.id);
    var m, lines, v := StoppedAt(w, a.id, j, mid), w.requests[a.id].lines, ReleaseLines(w, w.liens, a.id, j).world;
    StopIsResumable(w, a.id, j);
    ReleasableAgain(w, v, a.id, j);
    StoppedTables(w, a.id, j, mid);
    GateOfTheRetry(w, v, m, a);
    if Releasable(v, lines) {
      RetryGoes(w, v, a.id, j, mid);
      RetryApproves(m, a);
      TakenTwice(w, v, m, ReleaseLines(m, m.liens, a.id, |lines|).world, a.id, j, Perform(m, a).world.requests);
    } else {
      StopRefuses(m, a);
    }
  }
}
