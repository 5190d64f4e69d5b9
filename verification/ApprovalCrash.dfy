/** The approval loop stopped part way and approved again. The comment at
    src/release-requests/release-requests.service.ts:354-356 promises that any such
    retry is safe; it is so exactly when no line had been completed. */
module ApprovalCrash {
  import opened InventoryTypes
  import opened ReceiptNumbers
  import opened Ledger
  import opened LedgerInvariant
  import opened Conservation
  import opened Tables
  import opened Services
  import opened Coupling
  import opened Stability
  import opened ApprovalLoop
  import opened Reachable
  import opened CrashRetry

  /** The world after `j` whole lines, and the ledger call of one more if `mid`. */
  function StoppedAt(w: World, id: nat, j: nat, mid: bool): World
    requires id < |w.requests| && j <= |w.requests[id].lines|
    requires forall k :: 0 <= k < |w.requests[id].lines| ==> w.requests[id].lines[k].lien in w.liens
  {
    var v := ReleaseLines(w, w.liens, id, j).world;
    if mid && j < |w.requests[id].lines| then v.(db := Invoke(v.db, CallOf(w, id, j)).db) else v
  }

  lemma PartialKidNamesItsEvent(db: Db, call: Call)
    requires call.op.ReleasePartial? && Plan(db, call).Ok? && Sound(db)
    ensures Plan(db, call).value.change.Split? && |Plan(db, call).value.change.kids| == 2
    ensures Plan(db, call).value.change.kids[1].sourceEvent == Some(|db.events|)
  {
    hide SplitSuffixes, ChildNumber, BaseReceiptNumber, KeyUsed, Sound;
  }

  /** The part still held is found again under the event of its release. */
  lemma RemainderIsFound(db: Db, call: Call)
    requires call.op.ReleasePartial? && Plan(db, call).Ok? && Sound(db)
    requires forall key :: Uses(call, key) ==> !KeyUsed(db.events, key)
    ensures FindKid(Invoke(db, call).db.receipts, |db.events|, {HELD_LIEN}) == Some(|db.receipts| + 1)
  {
    hide Plan, Invoke, FreshReply, KeyUsed, Uses, Lineage, StatusRules, EventsFit, SharedBases;
    var after, n := Invoke(db, call).db, |db.receipts|;
    UnusedKeyCommits(db, call);
    CallAgesRows(db, call);
    PartialKidNamesItsEvent(db, call);
    PartialKids(db, call);
    var kids := NewRows(Plan(db, call).value.change);
    assert after.receipts[n] == kids[0] && after.receipts[n + 1] == kids[1];
    forall i: nat | i < n
      ensures after.receipts[i].sourceEvent != Some(|db.events|)
    {
      assert SourcedAt(db, i);
      assert Ages(db.receipts[i], after.receipts[i]);
    }
    FirstKidIsFound(after.receipts, n + 1, |db.events|, {HELD_LIEN});
  }

  lemma PartialKids(db: Db, call: Call)
    requires call.op.ReleasePartial? && Plan(db, call).Ok?
    ensures Plan(db, call).value.change.Split? && Plan(db, call).value.change.at < |db.receipts|
    ensures |Plan(db, call).value.change.kids| == 2
    ensures Plan(db, call).value.change.kids[0].status == ACTIVE
    ensures Plan(db, call).value.change.kids[1].status == HELD_LIEN
    ensures FreshReply(db, call.op) == PartialReply(Some(|db.receipts|), Some(|db.receipts| + 1))
  {
    hide SplitSuffixes, ChildNumber, BaseReceiptNumber, KeyUsed;
  }

  /** A line only looks at the ledger after its call and at the leaf it hands back. */
  lemma SameReplySameLine(w: World, m: World, id: nat, line: Line, lien: Lien, call: Call)
    requires id < |w.requests| && m == w.(db := m.db)
    requires call
         == Call(w.requests[id].tenant,
                 LineKey(if line.quantity == lien.remaining then FullWord else PartialWord, id, 0),
                 if line.quantity == lien.remaining then Release(lien.receipt)
                 else ReleasePartial(lien.receipt, line.quantity, Uuid(id)))
    requires Invoke(m.db, call).db == Invoke(w.db, call).db
    requires Invoke(m.db, call).reply.Ok? && Invoke(w.db, call).reply.Ok?
    requires call.op.ReleasePartial? ==>
               Invoke(m.db, call).reply.value.PartialReply? && Invoke(w.db, call).reply.value.PartialReply?
               && Invoke(m.db, call).reply.value.remainingHeld == Invoke(w.db, call).reply.value.remainingHeld
    ensures ReleaseLine(m, id, 0, line, lien) == ReleaseLine(w, id, 0, line, lien)
  {
    hide Invoke;
  }

  lemma FirstLinePlans(w: World, id: nat)
    requires Approvable(w, id) && 0 < |w.requests[id].lines|
    ensures w.requests[id].lines[0].lien in w.liens
    ensures Sound(w.db) && Plan(w.db, CallOf(w, id, 0)).Ok?
    ensures forall key :: Uses(CallOf(w, id, 0), key) ==> !KeyUsed(w.db.events, key)
  {
    hide Sound, Coupled, Plan, KeyUsed, RowsAged, TreesAside, LeavesGone, ReleaseLine, LiensMoved;
    NoLinesYet(w, id);
    LineCommits(w, w, id, 0);
    LineKeyUnused(w, w, id, 0);
  }

  lemma PartialRepliesAlike(db: Db, call: Call)
    requires call.op.ReleasePartial? && Plan(db, call).Ok? && Sound(db)
    requires forall key :: Uses(call, key) ==> !KeyUsed(db.events, key)
    ensures var after := Invoke(db, call).db;
            && Invoke(after, call).reply.Ok? && Invoke(after, call).reply.value.PartialReply?
            && Invoke(after, call).reply.value.remainingHeld == Some(|db.receipts| + 1)
            && Invoke(db, call).reply == Ok(PartialReply(Some(|db.receipts|), Some(|db.receipts| + 1)))
  {
    hide Sound, Plan, KeyUsed, FindEvent, FindKid, Transact, FreshReply, Uses;
    UnusedKeyCommits(db, call);
    CommittedEvent(db, call);
    RemainderIsFound(db, call);
    PartialKids(db, call);
  }

  /** A line whose ledger call is on file, and whose lien is not yet written, can be run
      again. */
  lemma FirstLineRetries(w: World, id: nat)
    requires id < |w.requests| && Approvable(w, id) && 0 < |w.requests[id].lines|
    ensures w.requests[id].lines[0].lien in w.liens
    ensures var line, lien := w.requests[id].lines[0], LienOf(w, id, 0);
            var m := w.(db := Invoke(w.db, CallOf(w, id, 0)).db);
            ReleaseLine(m, id, 0, line, lien) == ReleaseLine(w, id, 0, line, lien)
  {
    hide Approvable, Sound, Plan, KeyUsed, Invoke, ReleaseLine, FreshReply;
    FirstLinePlans(w, id);
    var call := CallOf(w, id, 0);
    UnusedKeyCommits(w.db, call);
    RepliesAgain(w.db, call);
    if call.op.ReleasePartial? {
      PartialRepliesAlike(w.db, call);
    }
    SameReplySameLine(w, w.(db := Invoke(w.db, call).db), id, w.requests[id].lines[0], LienOf(w, id, 0), call);
  }

  /** If the first line behaves the same, so does the whole loop. */
  lemma {:induction false} SameFromTheFirstLine(w: World, m: World, id: nat, n: nat)
    requires id < |w.requests| && 1 <= n <= |w.requests[id].lines| && m == w.(db := m.db)
    requires forall k :: 0 <= k < |w.requests[id].lines| ==> w.requests[id].lines[k].lien in w.liens
    requires ReleaseLines(m, m.liens, id, 1) == ReleaseLines(w, w.liens, id, 1)
    ensures ReleaseLines(m, m.liens, id, n) == ReleaseLines(w, w.liens, id, n)
  {
    hide ReleaseLine;
    if n > 1 {
      SameFromTheFirstLine(w, m, id, n - 1);
    }
  }

  lemma LineSetsItsLien(m: World, id: nat, k: nat, line: Line, lien: Lien)
    requires id < |m.requests| && ReleaseLine(m, id, k, line, lien).verdict.Done?
    ensures var v := ReleaseLine(m, id, k, line, lien).world;
            && line.lien in v.liens && v.liens[line.lien].remaining == lien.remaining - line.quantity
            && (forall l :: l in m.liens && l != line.lien ==> l in v.liens && v.liens[l] == m.liens[l])
  {
    hide Invoke;
  }

  /** A loop that runs through takes each line off its lien as the snapshot shows it. */
  lemma {:induction false} FirstLineCountsOnce(m: World, snapshot: map<nat, Lien>, id: nat, n: nat)
    requires id < |m.requests| && 1 <= n <= |m.requests[id].lines| && DistinctLiens(m.requests[id].lines)
    requires forall k :: 0 <= k < |m.requests[id].lines| ==> m.requests[id].lines[k].lien in snapshot
    requires ReleaseLines(m, snapshot, id, n).verdict.Done?
    ensures var v, line := ReleaseLines(m, snapshot, id, n).world, m.requests[id].lines[0];
            line.lien in v.liens && v.liens[line.lien].remaining == snapshot[line.lien].remaining - line.quantity
  {
    hide ReleaseLine;
    var line := m.requests[id].lines[n - 1];
    if n > 1 {
      FirstLineCountsOnce(m, snapshot, id, n - 1);
    }
    LineSetsItsLien(ReleaseLines(m, snapshot, id, n - 1).world, id, n - 1, line, snapshot[line.lien]);
  }

  lemma GateIgnoresTheLedger(w: World, m: World, a: Action)
    requires a.ApproveReleaseRequest? && m == w.(db := m.db)
    ensures GateOf(m, a) == GateOf(w, a)
  {
    assert a.id < |w.requests| ==> (Releasable(m, m.requests[a.id].lines) <==> Releasable(w, w.requests[a.id].lines));
    hide Releasable;
  }

  lemma UntouchedApprovalRetries(w: World, a: Action, mid: bool)
    requires Healthy(w) && a.ApproveReleaseRequest? && GateOf(w, a).Proceed?
    requires forall k :: 0 <= k < |w.requests[a.id].lines| ==> w.requests[a.id].lines[k].lien in w.liens
    ensures Perform(StoppedAt(w, a.id, 0, mid), a) == Perform(w, a)
  {
    assert w.requests[a.id].status.Pending? && Releasable(w, w.requests[a.id].lines);
    hide Healthy, Approvable, Invoke, ReleaseLine, Releasable, Perform, GateOf;
    PendingIsApprovable(w, a.id);
    var lines, m := w.requests[a.id].lines, StoppedAt(w, a.id, 0, mid);
    if mid && lines != [] {
      assert m == w.(db := Invoke(w.db, CallOf(w, a.id, 0)).db);
      GateIgnoresTheLedger(w, m, a);
      FirstLineRetries(w, a.id);
      OneLine(w, a.id);
      OneLine(m, a.id);
      hide ReleaseLines;
      SameFromTheFirstLine(w, m, a.id, |lines|);
      SameLinesSameApproval(w, m, a);
    }
  }

  lemma OneLine(w: World, id: nat)
    requires id < |w.requests| && 0 < |w.requests[id].lines|
    requires forall k :: 0 <= k < |w.requests[id].lines| ==> w.requests[id].lines[k].lien in w.liens
    ensures ReleaseLines(w, w.liens, id, 1)
         == ReleaseLine(w, id, 0, w.requests[id].lines[0], w.liens[w.requests[id].lines[0].lien])
  {
    assert ReleaseLines(w, w.liens, id, 0) == Served(w, Done);
    hide ReleaseLine;
  }

  lemma SameLinesSameApproval(w: World, m: World, a: Action)
    requires a.ApproveReleaseRequest? && m == w.(db := m.db) && GateOf(w, a).Proceed? && GateOf(m, a).Proceed?
    requires forall k :: 0 <= k < |w.requests[a.id].lines| ==> w.requests[a.id].lines[k].lien in w.liens
    requires ReleaseLines(m, m.liens, a.id, |w.requests[a.id].lines|)
         == ReleaseLines(w, w.liens, a.id, |w.requests[a.id].lines|)
    ensures Perform(m, a) == Perform(w, a)
  {
    hide ReleaseLines, Releasable;
  }

  /** After at least one line, the first lien has its line less. */
  lemma StoppedAfterTheFirstLine(w: World, id: nat, j: nat, mid: bool)
    requires Approvable(w, id) && DistinctLiens(w.requests[id].lines) && 0 < j <= |w.requests[id].lines|
    ensures forall k :: 0 <= k < |w.requests[id].lines| ==> w.requests[id].lines[k].lien in w.liens
    ensures var m, line := StoppedAt(w, id, j, mid), w.requests[id].lines[0];
            && m.requests == w.requests && line.lien in m.liens
            && m.liens[line.lien].remaining == w.liens[line.lien].remaining - line.quantity
  {
    LinesHaveLiens(w, id);
    DistinctLinesProgress(w, id, j);
    FirstLineCountsOnce(w, w.liens, id, j);
    hide Approvable, Invoke, ReleaseLines;
  }

  lemma ApprovedLiens(m: World, a: Action)
    requires a.ApproveReleaseRequest? && GateOf(m, a).Proceed? && Perform(m, a).verdict.Done?
    requires DistinctLiens(m.requests[a.id].lines) && m.requests[a.id].lines != []
    ensures var v, line := Perform(m, a).world, m.requests[a.id].lines[0];
            && line.lien in m.liens && line.lien in v.liens
            && v.liens[line.lien].remaining == m.liens[line.lien].remaining - line.quantity
  {
    assert Releasable(m, m.requests[a.id].lines);
    hide ReleaseLines;
    FirstLineCountsOnce(m, m.liens, a.id, |m.requests[a.id].lines|);
  }

  lemma StartedApprovalDiffers(w: World, a: Action, j: nat, mid: bool)
    requires Healthy(w) && a.ApproveReleaseRequest? && GateOf(w, a).Proceed?
    requires forall k :: 0 <= k < |w.requests[a.id].lines| ==> w.requests[a.id].lines[k].lien in w.liens
    requires 0 < j <= |w.requests[a.id].lines|
    ensures var again, once, l := Perform(StoppedAt(w, a.id, j, mid), a), Perform(w, a), w.requests[a.id].lines[0].lien;
            && once.verdict.Done? && l in once.world.liens
            && (again.verdict.Refused?
                || (l in again.world.liens
                    && again.world.liens[l].remaining
                       == once.world.liens[l].remaining - w.requests[a.id].lines[0].quantity
                    && w.requests[a.id].lines[0].quantity > 0))
  {
    assert w.requests[a.id].status.Pending? && Releasable(w, w.requests[a.id].lines);
    hide Healthy, Approvable, StoppedAt, Releasable, Perform;
    PendingIsApprovable(w, a.id);
    FitsAtApproval(w, a.id);
    ApprovingRequestKeepsHealthy(w, a);
    ApprovedLiens(w, a);
    var m := StoppedAt(w, a.id, j, mid);
    StoppedAfterTheFirstLine(w, a.id, j, mid);
    if Perform(m, a).verdict.Done? {
      ApprovedGate(m, a);
      hide GateOf;
      ApprovedLiens(m, a);
    }
  }

  /** Approving has no quiet way out. */
  lemma ApprovedGate(m: World, a: Action)
    requires a.ApproveReleaseRequest? && Perform(m, a).verdict.Done?
    ensures GateOf(m, a).Proceed?
  {
    hide ReleaseLines;
  }

  /** Approving again after a stop equals one uninterrupted approval exactly when no line
      had been completed. Otherwise the retry is refused, or takes the first line off
      its lien a second time. */
  lemma ApprovalRetriesIffNoLineWasCompleted(w: World, a: Action, j: nat, mid: bool)
    requires Healthy(w) && a.ApproveReleaseRequest? && GateOf(w, a).Proceed?
    requires j <= |w.requests[a.id].lines|
    ensures forall k :: 0 <= k < |w.requests[a.id].lines| ==> w.requests[a.id].lines[k].lien in w.liens
    ensures Perform(StoppedAt(w, a.id, j, mid), a) == Perform(w, a) <==> j == 0
  {
    assert w.requests[a.id].status.Pending? && Releasable(w, w.requests[a.id].lines);
    FitsAtApproval(w, a.id);
    hide Healthy, Perform, StoppedAt, GateOf, Releasable;
    if j == 0 {
      UntouchedApprovalRetries(w, a, mid);
    } else {
      StartedApprovalDiffers(w, a, j, mid);
    }
  }
}
