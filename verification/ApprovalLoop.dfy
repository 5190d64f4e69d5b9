/** The approval of a release request: one ledger call and one lien update per line,
    read off a snapshot of the liens taken before the loop
    (src/release-requests/release-requests.service.ts, lines 358-479). */
module ApprovalLoop {
  import opened InventoryTypes
  import opened ReceiptNumbers
  import opened Ledger
  import opened LedgerInvariant
  import opened Conservation
  import ExactlyOnce
  import opened Totals
  import opened Tables
  import opened Services
  import opened Coupling
  import opened Stability

  /** What a request needs before its loop starts; its lines may still repeat a lien. */
  ghost predicate Approvable(w: World, id: nat) {
    && id < |w.requests| && Sound(w.db) && Coupled(w)
    && Releasable(w, w.requests[id].lines)
    && (forall k: nat :: k < |w.requests[id].lines| ==> LineIsReady(w, id, k))
  }

  ghost predicate LineIsReady(w: World, id: nat, k: nat)
    requires id < |w.requests| && k < |w.requests[id].lines|
  {
    var line := w.requests[id].lines[k];
    && line.quantity > 0 && line.lien in w.liens && w.liens[line.lien].tenant == w.requests[id].tenant
    && !KeyUsed(w.db.events, LineKey(FullWord, id, k)) && !KeyUsed(w.db.events, LineKey(PartialWord, id, k))
  }

  /** The lien line `k` releases from, as the snapshot shows it. */
  function LienOf(w: World, id: nat, k: nat): Lien
    requires id < |w.requests| && k < |w.requests[id].lines| && w.requests[id].lines[k].lien in w.liens
  {
    w.liens[w.requests[id].lines[k].lien]
  }

  function KeyOf(w: World, id: nat, k: nat): Key
    requires id < |w.requests| && k < |w.requests[id].lines| && w.requests[id].lines[k].lien in w.liens
  {
    LineKey(if w.requests[id].lines[k].quantity == LienOf(w, id, k).remaining then FullWord else PartialWord, id, k)
  }

  function CallOf(w: World, id: nat, k: nat): Call
    requires id < |w.requests| && k < |w.requests[id].lines| && w.requests[id].lines[k].lien in w.liens
  {
    var line, lien := w.requests[id].lines[k], LienOf(w, id, k);
    Call(w.requests[id].tenant, KeyOf(w, id, k),
         if line.quantity == lien.remaining then Release(lien.receipt)
         else ReleasePartial(lien.receipt, line.quantity, Uuid(id)))
  }

  function ActiveShare(): Receipt -> int {
    (r: Receipt) => if r.status == ACTIVE then r.quantity else 0
  }

  function QuantityOf(lines: seq<Line>): int {
    if lines == [] then 0 else QuantityOf(lines[..|lines| - 1]) + lines[|lines| - 1].quantity
  }

  // ----- What `n` lines have done ------------------------------------------

  /** The lien after its line: less by exactly the line, released when nothing is left. */
  ghost predicate LessItsLine(before: Lien, line: Line, after: Lien) {
    && after == before.(receipt := after.receipt, remaining := after.remaining, status := after.status)
    && after.remaining == before.remaining - line.quantity
    && (if after.remaining == 0 then after.status == LienStatus.Released && after.receipt == before.receipt
        else after.status == PartiallyReleased)
  }

  ghost predicate LiensMoved(w: World, v: World, id: nat, n: nat)
    requires id < |w.requests| && n <= |w.requests[id].lines|
  {
    var lines := w.requests[id].lines;
    && v.liens.Keys == w.liens.Keys
    && (forall l :: l in w.liens && (forall k :: 0 <= k < n ==> lines[k].lien != l) ==> v.liens[l] == w.liens[l])
    && (forall k :: 0 <= k < n ==>
          lines[k].lien in w.liens && LessItsLine(w.liens[lines[k].lien], lines[k], v.liens[lines[k].lien]))
  }

  ghost predicate KeysSpent(w: World, v: World, id: nat, n: nat)
    requires Approvable(w, id) && n <= |w.requests[id].lines|
  {
    forall key :: KeyUsed(v.db.events, key) <==> KeyUsed(w.db.events, key) || SpentBy(w, id, n, key)
  }

  ghost predicate SpentBy(w: World, id: nat, n: nat, key: Key)
    requires Approvable(w, id) && n <= |w.requests[id].lines|
  {
    exists k: nat {:trigger KeyOf(w, id, k)} :: k < n && key == KeyOf(w, id, k)
  }

  /** Whether row `i` lies in a tree that one of the first `n` lines releases from. */
  ghost predicate InReleasedTree(w: World, id: nat, n: nat, root: nat)
    requires Approvable(w, id) && n <= |w.requests[id].lines|
  {
    exists k: nat {:trigger LienOf(w, id, k)} :: k < n && LienOf(w, id, k).receipt < |w.db.receipts|
      && w.db.receipts[LienOf(w, id, k).receipt].root == root
  }

  ghost predicate TreesAside(w: World, v: World, id: nat, n: nat)
    requires Approvable(w, id) && n <= |w.requests[id].lines|
  {
    forall i: nat {:trigger v.db.receipts[i]} :: i < |v.db.receipts| && !InReleasedTree(w, id, n, v.db.receipts[i].root)
      ==> i < |w.db.receipts| && v.db.receipts[i] == w.db.receipts[i]
  }

  /** The leaves already released are not held any more. */
  ghost predicate LeavesGone(w: World, v: World, id: nat, n: nat)
    requires Approvable(w, id) && n <= |w.requests[id].lines|
  {
    forall k: nat {:trigger LienOf(w, id, k)} :: k < n ==>
      LienOf(w, id, k).receipt < |v.db.receipts| && v.db.receipts[LienOf(w, id, k).receipt].status !in HELD
  }

  ghost predicate Progress(w: World, v: World, id: nat, n: nat)
    requires Approvable(w, id) && n <= |w.requests[id].lines|
  {
    && v == w.(db := v.db, liens := v.liens)
    && Sound(v.db) && Coupled(v)
    && RowsAged(w.db.receipts, v.db.receipts)
    && LiensMoved(w, v, id, n)
    && KeysSpent(w, v, id, n)
    && TreesAside(w, v, id, n)
    && LeavesGone(w, v, id, n)
    && Total(v.db.receipts, ActiveShare())
       == Total(w.db.receipts, ActiveShare()) + QuantityOf(w.requests[id].lines[..n])
  }

  // ----- One line ----------------------------------------------------------

  /** The lien of a line nobody has touched still backs its leaf. */
  lemma LeafOfLine(w: World, v: World, id: nat, k: nat)
    requires Approvable(w, id) && k < |w.requests[id].lines| && Coupled(v)
    requires w.requests[id].lines[k].lien in v.liens && v.liens[w.requests[id].lines[k].lien] == LienOf(w, id, k)
    ensures var lien, c := LienOf(w, id, k), Claim(LienClaim, w.requests[id].lines[k].lien);
            && StakeOf(v, c) == Some(Stake(lien.receipt, lien.remaining, w.requests[id].tenant, false))
            && Backs(v.db.receipts, c, StakeOf(v, c).value)
            && Live(lien) && 0 < w.requests[id].lines[k].quantity <= lien.remaining
  {
    hide Sound, Claimed, KeyUsed;
    assert LineIsReady(w, id, k);
    assert LineReleasable(w, w.requests[id].lines[k]);
  }

  /** The plan of a line's ledger call. */
  lemma LineCallPlans(db: Db, call: Call, quantity: int)
    requires call.op.Release? || (call.op.ReleasePartial? && 0 < call.op.quantity < quantity)
    requires Present(db.receipts, call.op.receipt, call.tenant)
    requires db.receipts[call.op.receipt].status == HELD_LIEN && db.receipts[call.op.receipt].quantity == quantity
    ensures Plan(db, call).Ok?
    ensures var at, w := call.op.receipt, Plan(db, call).value;
            var r := db.receipts[at];
            if call.op.Release? then w.change == Rewrite(at, r.(status := ACTIVE, approval := APPROVED))
            else
              && w.change.Split? && w.change.at == at && |w.change.kids| == 2
              && w.change.kids[0].status == ACTIVE && w.change.kids[0].quantity == call.op.quantity
              && w.change.kids[0].root == r.root
              && w.change.kids[1].status == HELD_LIEN && w.change.kids[1].quantity == quantity - call.op.quantity
              && w.change.kids[1].root == r.root && w.change.kids[1].txnId == r.txnId
              && w.change.kids[1].tenant == r.tenant
    ensures call.op.ReleasePartial?
           ==> FreshReply(db, call.op) == PartialReply(Some(|db.receipts|), Some(|db.receipts| + 1))
  {
    hide SplitSuffixes, ChildNumber, BaseReceiptNumber, KeyUsed;
  }

  /** The lien update of a line. */
  function LienAfter(lien: Lien, line: Line, next: nat): Lien {
    if line.quantity == lien.remaining then lien.(remaining := 0, status := LienStatus.Released)
    else lien.(receipt := next + 1, remaining := lien.remaining - line.quantity, status := PartiallyReleased)
  }

  lemma LineCommits(w: World, v: World, id: nat, n: nat)
    requires Approvable(w, id) && n < |w.requests[id].lines| && Progress(w, v, id, n)
    requires forall j :: 0 <= j < n ==> w.requests[id].lines[j].lien != w.requests[id].lines[n].lien
    ensures w.requests[id].lines[n].lien in w.liens
    ensures var line, lien, call := w.requests[id].lines[n], LienOf(w, id, n), CallOf(w, id, n);
            && v.liens[line.lien] == lien
            && Plan(v.db, call).Ok?
            && var after := Invoke(v.db, call).db;
               && after == After(v.db, Plan(v.db, call).value) && Sound(after)
               && RowsAged(v.db.receipts, after.receipts)
               && (forall key :: KeyUsed(after.events, key) <==> KeyUsed(v.db.events, key) || key == call.key)
               && ReleaseLine(v, id, n, line, lien)
                  == Served(v.(db := after, liens := v.liens[line.lien := LienAfter(lien, line, |v.db.receipts|)]),
                            Done)
  {
    hide Sound, Plan, Invoke, KeyUsed, Claimed, RowsAged, StakeOf, TreesAside, LeavesGone, Total, FreshReply, Collides;
    assert LineIsReady(w, id, n);
    LeafOfLine(w, v, id, n);
    var line, lien, call := w.requests[id].lines[n], LienOf(w, id, n), CallOf(w, id, n);
    LineCallPlans(v.db, call, lien.remaining);
    LineKeyUnused(w, v, id, n);
    assert forall key :: Uses(call, key) <==> key == call.key;
    UnusedKeyCommits(v.db, call);
    CallAgesRows(v.db, call);
  }

  lemma LineKeyUnused(w: World, v: World, id: nat, n: nat)
    requires Approvable(w, id) && n < |w.requests[id].lines| && KeysSpent(w, v, id, n)
    ensures w.requests[id].lines[n].lien in w.liens && !KeyUsed(v.db.events, KeyOf(w, id, n))
  {
    hide Sound, Coupled, KeyUsed;
    assert LineIsReady(w, id, n);
  }

  /** The receipt table before and after a line: leaf `at` becomes available, or is split
      into an available part and a part still held for the same lien. */
  ghost predicate LineRows(before: seq<Receipt>, after: seq<Receipt>, at: nat, quantity: int, all: bool) {
    && at < |before| && before[at].status == HELD_LIEN
    && var r := before[at];
       if all then quantity == r.quantity && after == before[at := r.(status := ACTIVE, approval := APPROVED)]
       else
         && 0 < quantity < r.quantity
         && |after| == |before| + 2
         && after == before[at := Superseded(r)] + [after[|before|], after[|before| + 1]]
         && after[|before|].status == ACTIVE && after[|before|].quantity == quantity && after[|before|].root == r.root
         && after[|before| + 1].status == HELD_LIEN && after[|before| + 1].quantity == r.quantity - quantity
         && after[|before| + 1].root == r.root && after[|before| + 1].txnId == r.txnId
         && after[|before| + 1].tenant == r.tenant
  }

  lemma LineMovesRows(w: World, v: World, id: nat, n: nat)
    requires Approvable(w, id) && n < |w.requests[id].lines| && Progress(w, v, id, n)
    requires forall j :: 0 <= j < n ==> w.requests[id].lines[j].lien != w.requests[id].lines[n].lien
    ensures w.requests[id].lines[n].lien in w.liens
    ensures var line, lien := w.requests[id].lines[n], LienOf(w, id, n);
            LineRows(v.db.receipts, Invoke(v.db, CallOf(w, id, n)).db.receipts, lien.receipt, line.quantity,
                     line.quantity == lien.remaining)
  {
    hide Sound, Plan, Invoke, KeyUsed, Claimed, RowsAged, StakeOf, TreesAside, LeavesGone, Total, FreshReply,
         ReleaseLine, KeysSpent;
    LineCommits(w, v, id, n);
    LeafOfLine(w, v, id, n);
    LineCallPlans(v.db, CallOf(w, id, n), LienOf(w, id, n).remaining);
  }

  lemma LineKeepsCoupled(w: World, v: World, u: World, c: Claim, lien: Lien, line: Line)
    requires Coupled(v) && u == v.(db := u.db, liens := v.liens[line.lien := LienAfter(lien, line, |v.db.receipts|)])
    requires c == Claim(LienClaim, line.lien) && line.lien in v.liens && v.liens[line.lien] == lien && Live(lien)
    requires line.quantity <= lien.remaining && lien.receipt < |v.db.receipts|
    requires Backs(v.db.receipts, c, StakeOf(v, c).value)
    requires LineRows(v.db.receipts, u.db.receipts, lien.receipt, line.quantity, line.quantity == lien.remaining)
    ensures Coupled(u)
  {
    hide Coupled;
    assert OnlyChanged(v, u, {c});
    if line.quantity == lien.remaining {
      hide StakeOf;
      CoupledAfterLettingGo(v, u, c, u.db.receipts[lien.receipt]) by {
        ReleasedHasNoStake(u, line.lien);
        LiveHasStake(v, line.lien);
      }
    } else {
      var n := |v.db.receipts|;
      CoupledAfterPartial(v, u, c, [u.db.receipts[n], u.db.receipts[n + 1]]);
    }
  }

  lemma ReleasedHasNoStake(w: World, id: nat)
    requires id in w.liens && !Live(w.liens[id])
    ensures StakeOf(w, Claim(LienClaim, id)).None?
  {
  }

  lemma LiveHasStake(w: World, id: nat)
    requires id in w.liens && Live(w.liens[id])
    ensures StakeOf(w, Claim(LienClaim, id)).Some? && StakeOf(w, Claim(LienClaim, id)).value.leaf == w.liens[id].receipt
  {
  }

  lemma LineMovesLiens(w: World, v: World, u: World, id: nat, n: nat)
    requires id < |w.requests| && n < |w.requests[id].lines| && LiensMoved(w, v, id, n)
    requires w.requests[id].lines[n].lien in w.liens
    requires forall j :: 0 <= j < n ==> w.requests[id].lines[j].lien != w.requests[id].lines[n].lien
    requires var line := w.requests[id].lines[n];
             u.liens == v.liens[line.lien := LienAfter(LienOf(w, id, n), line, |v.db.receipts|)]
    ensures LiensMoved(w, u, id, n + 1)
  {
  }

  lemma LineSpendsKey(w: World, v: World, u: World, id: nat, n: nat)
    requires id < |w.requests| && Approvable(w, id) && n < |w.requests[id].lines| && KeysSpent(w, v, id, n)
    requires w.requests[id].lines[n].lien in w.liens
    requires forall key :: KeyUsed(u.db.events, key) <==> KeyUsed(v.db.events, key) || key == KeyOf(w, id, n)
    ensures KeysSpent(w, u, id, n + 1)
  {
    hide Approvable, KeyUsed, KeyOf;
    forall key
      ensures SpentBy(w, id, n + 1, key) <==> SpentBy(w, id, n, key) || key == KeyOf(w, id, n)
    {
    }
  }

  lemma LineLeavesTreesAside(w: World, v: World, u: World, id: nat, n: nat)
    requires id < |w.requests| && Approvable(w, id) && n < |w.requests[id].lines| && TreesAside(w, v, id, n)
    requires w.requests[id].lines[n].lien in w.liens && LienOf(w, id, n).receipt < |w.db.receipts| <= |v.db.receipts|
    requires v.db.receipts[LienOf(w, id, n).receipt].root == w.db.receipts[LienOf(w, id, n).receipt].root
    requires LineRows(v.db.receipts, u.db.receipts, LienOf(w, id, n).receipt, w.requests[id].lines[n].quantity,
                      w.requests[id].lines[n].quantity == LienOf(w, id, n).remaining)
    ensures TreesAside(w, u, id, n + 1)
  {
    hide Approvable;
    var at, root := LienOf(w, id, n).receipt, w.db.receipts[LienOf(w, id, n).receipt].root;
    assert InReleasedTree(w, id, n + 1, root);
    forall i: nat | i < |u.db.receipts| && !InReleasedTree(w, id, n + 1, u.db.receipts[i].root)
      ensures i < |w.db.receipts| && u.db.receipts[i] == w.db.receipts[i]
    {
      assert i < |v.db.receipts| && i != at && u.db.receipts[i] == v.db.receipts[i];
      assert !InReleasedTree(w, id, n, v.db.receipts[i].root);
    }
  }

  lemma LineLeavesLeavesGone(w: World, v: World, u: World, id: nat, n: nat)
    requires id < |w.requests| && Approvable(w, id) && n < |w.requests[id].lines| && LeavesGone(w, v, id, n)
    requires w.requests[id].lines[n].lien in w.liens
    requires LineRows(v.db.receipts, u.db.receipts, LienOf(w, id, n).receipt, w.requests[id].lines[n].quantity,
                      w.requests[id].lines[n].quantity == LienOf(w, id, n).remaining)
    ensures LeavesGone(w, u, id, n + 1)
  {
    hide Approvable;
  }

  /** Releasing frees exactly the quantity of the line. */
  lemma LineFreesItsQuantity(before: seq<Receipt>, after: seq<Receipt>, at: nat, quantity: int, all: bool)
    requires LineRows(before, after, at, quantity, all)
    ensures Total(after, ActiveShare()) == Total(before, ActiveShare()) + quantity
  {
    hide Total;
    if all {
      TotalSet(before, at, after[at], ActiveShare());
    } else {
      var kids := [after[|before|], after[|before| + 1]];
      SplitShifts(before, at, kids, ActiveShare());
    }
  }

  lemma LineProgresses(w: World, v: World, id: nat, n: nat)
    requires Approvable(w, id) && n < |w.requests[id].lines| && Progress(w, v, id, n)
    requires forall j :: 0 <= j < n ==> w.requests[id].lines[j].lien != w.requests[id].lines[n].lien
    ensures w.requests[id].lines[n].lien in w.liens
    ensures var s := ReleaseLine(v, id, n, w.requests[id].lines[n], LienOf(w, id, n));
            s.verdict.Done? && Progress(w, s.world, id, n + 1)
  {
    hide Sound, Plan, Invoke, KeyUsed, RowsAged, StakeOf, Total, FreshReply, ReleaseLine, KeysSpent, TreesAside,
         LeavesGone, LiensMoved, LineRows, Coupled, Backs, SpentBy;
    LineCommits(w, v, id, n);
    StillLive(w, v, id, n);
    LineMovesRows(w, v, id, n);
    LeafOfLine(w, v, id, n);
    var line, lien := w.requests[id].lines[n], LienOf(w, id, n);
    var u := ReleaseLine(v, id, n, line, lien).world;
    LeafWasThere(w, v, id, n);
    LineKeepsCoupled(w, v, u, Claim(LienClaim, line.lien), lien, line);
    LineMovesLiens(w, v, u, id, n);
    LineSpendsKey(w, v, u, id, n);
    LineLeavesTreesAside(w, v, u, id, n);
    LineLeavesLeavesGone(w, v, u, id, n);
    LineFreesItsQuantity(v.db.receipts, u.db.receipts, lien.receipt, line.quantity, line.quantity == lien.remaining);
    assert w.requests[id].lines[..n + 1][..n] == w.requests[id].lines[..n];
    AgedTwice(w.db.receipts, v.db.receipts, u.db.receipts);
  }

  lemma StillLive(w: World, v: World, id: nat, n: nat)
    requires Approvable(w, id) && n < |w.requests[id].lines| && LiensMoved(w, v, id, n)
    requires w.requests[id].lines[n].lien in w.liens
    ensures w.requests[id].lines[n].lien in v.liens
  {
  }

  lemma LeafWasThere(w: World, v: World, id: nat, n: nat)
    requires Approvable(w, id) && n < |w.requests[id].lines| && RowsAged(w.db.receipts, v.db.receipts)
    ensures w.requests[id].lines[n].lien in w.liens
    ensures var at := LienOf(w, id, n).receipt;
            at < |w.db.receipts| <= |v.db.receipts| && v.db.receipts[at].root == w.db.receipts[at].root
  {
    hide Sound, KeyUsed, Claimed, Rank;
    assert LineIsReady(w, id, n);
    LeafOfLine(w, w, id, n);
    assert Ages(w.db.receipts[LienOf(w, id, n).receipt], v.db.receipts[LienOf(w, id, n).receipt]);
  }

  // ----- The loop ----------------------------------------------------------

  lemma NoLinesYet(w: World, id: nat)
    requires Approvable(w, id)
    ensures Progress(w, w, id, 0)
  {
    hide Sound, Coupled, KeyUsed, Total;
    RowsStay(w.db.receipts);
  }

  lemma LinesHaveLiens(w: World, id: nat)
    requires Approvable(w, id)
    ensures forall k :: 0 <= k < |w.requests[id].lines| ==> w.requests[id].lines[k].lien in w.liens
  {
    hide Sound, Coupled;
    forall k: nat | k < |w.requests[id].lines|
      ensures w.requests[id].lines[k].lien in w.liens
    {
      assert LineIsReady(w, id, k);
    }
  }

  /** As long as the lines name distinct liens, every ledger call of the loop succeeds. */
  lemma {:induction false} DistinctLinesProgress(w: World, id: nat, n: nat)
    requires id < |w.requests| && Approvable(w, id) && n <= |w.requests[id].lines|
    requires DistinctLiens(w.requests[id].lines[..n])
    requires forall k :: 0 <= k < |w.requests[id].lines| ==> w.requests[id].lines[k].lien in w.liens
    ensures var s := ReleaseLines(w, w.liens, id, n); s.verdict.Done? && Progress(w, s.world, id, n)
  {
    hide Approvable, Progress, ReleaseLine;
    if n == 0 {
      NoLinesYet(w, id);
    } else {
      var lines := w.requests[id].lines;
      assert lines[..n][..n - 1] == lines[..n - 1];
      DistinctLinesProgress(w, id, n - 1);
      var v := ReleaseLines(w, w.liens, id, n - 1).world;
      forall j | 0 <= j < n - 1
        ensures lines[j].lien != lines[n - 1].lien
      {
        assert lines[..n][j].lien != lines[..n][n - 1].lien;
      }
      LineProgresses(w, v, id, n - 1);
    }
  }

  /** A line that names a lien again reads a stale leaf off the snapshot, and the ledger
      refuses it. */
  lemma RepeatedLineIsRefused(w: World, v: World, id: nat, j: nat, n: nat)
    requires Approvable(w, id) && j < n < |w.requests[id].lines| && Progress(w, v, id, n)
    requires w.requests[id].lines[j].lien == w.requests[id].lines[n].lien
    ensures w.requests[id].lines[n].lien in w.liens
    ensures ReleaseLine(v, id, n, w.requests[id].lines[n], LienOf(w, id, n))
         == Served(v, Refused(LedgerRefused(InvalidTransition)))
  {
    hide Sound, KeyUsed, Claimed, RowsAged, TreesAside, Total, FreshReply, Plan, KeysSpent;
    LeafOfLine(w, w, id, n);
    LeafWasThere(w, v, id, n);
    LineKeyUnused(w, v, id, n);
    var call := CallOf(w, id, n);
    assert LienOf(w, id, j) == LienOf(w, id, n);
    assert v.db.receipts[call.op.receipt].status !in HELD;
    StaleLeafIsRefused(v.db, call) by { TenantStays(w, v, id, n); }
    ExactlyOnce.FoundIsUsed(v.db.events, call.key);
  }

  lemma TenantStays(w: World, v: World, id: nat, n: nat)
    requires Approvable(w, id) && n < |w.requests[id].lines| && RowsAged(w.db.receipts, v.db.receipts)
    ensures w.requests[id].lines[n].lien in w.liens
    ensures Present(v.db.receipts, LienOf(w, id, n).receipt, w.requests[id].tenant)
  {
    hide Sound, KeyUsed, Claimed, Rank;
    assert LineIsReady(w, id, n);
    LeafOfLine(w, w, id, n);
    assert Ages(w.db.receipts[LienOf(w, id, n).receipt], v.db.receipts[LienOf(w, id, n).receipt]);
  }

  lemma StaleLeafIsRefused(db: Db, call: Call)
    requires call.op.Release? || call.op.ReleasePartial?
    requires Present(db.receipts, call.op.receipt, call.tenant) && db.receipts[call.op.receipt].status !in HELD
    ensures Plan(db, call) == Err(InvalidTransition)
  {
    hide SplitSuffixes, Partition, Child, KeyUsed;
  }

  lemma {:induction false} FirstRepeat(lines: seq<Line>, n: nat) returns (j: nat, k: nat)
    requires n <= |lines| && !DistinctLiens(lines[..n])
    ensures j < k < n && lines[j].lien == lines[k].lien && DistinctLiens(lines[..k])
  {
    if DistinctLiens(lines[..n - 1]) {
      k := n - 1;
      var a, b :| 0 <= a < b < n && lines[..n][a].lien == lines[..n][b].lien;
      assert forall p, q :: 0 <= p < q < k ==> lines[..k][p].lien != lines[..k][q].lien;
      assert forall p :: 0 <= p < k ==> lines[..k][p] == lines[p];
      j := a;
    } else {
      j, k := FirstRepeat(lines, n - 1);
    }
  }

  /** A request that repeats a lien is not approved all-or-nothing: the lines before the
      first repeated one stay carried out, and the request stays pending. */
  lemma RefusedApprovalKeepsItsFirstLines(w: World, id: nat) returns (k: nat)
    requires id < |w.requests| && Approvable(w, id) && !DistinctLiens(w.requests[id].lines)
    ensures 0 < k < |w.requests[id].lines| && DistinctLiens(w.requests[id].lines[..k])
    ensures !DistinctLiens(w.requests[id].lines[..k + 1])
    ensures ApproveRequest(w, id).verdict == Refused(LedgerRefused(InvalidTransition))
    ensures Progress(w, ApproveRequest(w, id).world, id, k)
    ensures ApproveRequest(w, id).world.requests == w.requests
  {
    hide Approvable, Progress, ReleaseLine, LienOf, ReleaseLines;
    ApprovableIsReleasable(w, id);
    LinesHaveLiens(w, id);
    var lines := w.requests[id].lines;
    assert lines[..|lines|] == lines;
    var j;
    j, k := FirstRepeat(lines, |lines|);
    assert lines[..k + 1][j].lien == lines[..k + 1][k].lien;
    DistinctLinesProgress(w, id, k);
    var v := ReleaseLines(w, w.liens, id, k).world;
    RepeatedLineIsRefused(w, v, id, j, k);
    NextLine(w, id, k);
    RefusalSticks(w, w.liens, id, k + 1, |lines|);
  }

  /** The approval of a validated request succeeds exactly when its lines name distinct
      liens. */
  lemma ApprovalSucceedsIffDistinct(w: World, id: nat)
    requires id < |w.requests| && Approvable(w, id)
    ensures ApproveRequest(w, id).verdict.Done? <==> DistinctLiens(w.requests[id].lines)
    ensures !DistinctLiens(w.requests[id].lines) ==>
              && ApproveRequest(w, id).verdict == Refused(LedgerRefused(InvalidTransition))
              && ApproveRequest(w, id).world.requests == w.requests
  {
    hide Approvable, Progress, ReleaseLine, LienOf, ReleaseLines;
    LinesHaveLiens(w, id);
    var lines := w.requests[id].lines;
    assert lines[..|lines|] == lines;
    ApprovableIsReleasable(w, id);
    if DistinctLiens(lines) {
      DistinctLinesProgress(w, id, |lines|);
    } else {
      var k := RefusedApprovalKeepsItsFirstLines(w, id);
    }
  }

  lemma ApprovableIsReleasable(w: World, id: nat)
    requires Approvable(w, id)
    ensures id < |w.requests| && Releasable(w, w.requests[id].lines)
  {
  }

  lemma NextLine(w: World, id: nat, k: nat)
    requires id < |w.requests| && k < |w.requests[id].lines|
    requires forall k :: 0 <= k < |w.requests[id].lines| ==> w.requests[id].lines[k].lien in w.liens
    requires ReleaseLines(w, w.liens, id, k).verdict.Done?
    ensures ReleaseLines(w, w.liens, id, k + 1)
         == ReleaseLine(ReleaseLines(w, w.liens, id, k).world, id, k, w.requests[id].lines[k], LienOf(w, id, k))
  {
    hide ReleaseLine;
  }

  /** A validated request over distinct liens is approved whole: each lien is left with
      its line less, the available quantity grows by the sum of the lines, and no tree
      without a released leaf changes at all. */
  lemma ApprovalIsAllOrNothing(w: World, id: nat)
    requires id < |w.requests| && Approvable(w, id) && DistinctLiens(w.requests[id].lines)
    ensures ApproveRequest(w, id).verdict.Done?
    ensures var v, lines := ApproveRequest(w, id).world, w.requests[id].lines;
            && LiensMoved(w, v, id, |lines|)
            && v.requests == w.requests[id := w.requests[id].(status := RequestStatus.Approved)]
            && TreesAside(w, v, id, |lines|)
            && Total(v.db.receipts, ActiveShare()) == Total(w.db.receipts, ActiveShare()) + QuantityOf(lines)
            && Sound(v.db) && Coupled(v) && KeysSpent(w, v, id, |lines|) && RowsAged(w.db.receipts, v.db.receipts)
            && v == w.(db := v.db, liens := v.liens, requests := v.requests)
  {
    hide Approvable, ReleaseLine, LienOf, ReleaseLines, LiensMoved, KeysSpent, TreesAside, LeavesGone, Total, Sound,
         Coupled, RowsAged;
    LinesHaveLiens(w, id);
    ApprovableIsReleasable(w, id);
    var lines := w.requests[id].lines;
    assert lines[..|lines|] == lines;
    DistinctLinesProgress(w, id, |lines|);
    var u := ReleaseLines(w, w.liens, id, |lines|).world;
    var v := ApproveRequest(w, id).world;
    assert v == SetRequest(u, id, RequestStatus.Approved);
    MarkingKeepsProgress(w, u, v, id);
  }

  lemma MarkingKeepsProgress(w: World, u: World, v: World, id: nat)
    requires id < |w.requests| && Approvable(w, id) && u.requests == w.requests
    requires v == SetRequest(u, id, RequestStatus.Approved)
    requires Coupled(u) && LiensMoved(w, u, id, |w.requests[id].lines|) && KeysSpent(w, u, id, |w.requests[id].lines|)
    requires TreesAside(w, u, id, |w.requests[id].lines|)
    ensures Coupled(v) && LiensMoved(w, v, id, |w.requests[id].lines|) && KeysSpent(w, v, id, |w.requests[id].lines|)
    ensures TreesAside(w, v, id, |w.requests[id].lines|)
  {
    hide Approvable, Coupled, KeyUsed, InReleasedTree, SpentBy, LienOf;
    assert OnlyChanged(u, v, {});
    hide StakeOf;
    CoupledAside(u, v);
  }
}
