/** The books of the liens over rounding columns, after any run of service calls: what a lien
    was granted is what remains of it, what approved requests asked of it, and what approvals
    that were refused half way had already taken. */
module DecimalBooks {
  import opened Ledger
  import opened LedgerInvariant
  import opened Tables
  import opened Services
  import opened Coupling
  import opened Stability
  import opened Closing
  import opened Opening
  import opened Aside
  import opened ApprovalLoop
  import opened Decimals
  import opened DecimalServices
  import opened DecimalApproval
  import opened DecimalReachable
  import opened LineByLine

  // ----- What an approval takes --------------------------------------------

  /** What those of the first `n` lines that went through took from lien `l`. */
  function CarriedOut(w: World, id: nat, n: nat, g: int, l: nat): int
    requires g > 0 && id < |w.requests| && n <= |w.requests[id].lines|
    requires forall k :: 0 <= k < |w.requests[id].lines| ==> w.requests[id].lines[k].lien in w.liens
  {
    if n == 0 then 0
    else
      var line := w.requests[id].lines[n - 1];
      CarriedOut(w, id, n - 1, g, l)
      + (if line.lien == l && StoredReleaseLines(w, w.liens, id, n, g).verdict.Done? then line.quantity else 0)
  }

  /** What lien `l` has left after some lines. */
  ghost predicate Took(w: World, s: Served, id: nat, n: nat, l: nat, taken: int)
    requires id < |w.requests| && n <= |w.requests[id].lines|
  {
    && (l in w.liens <==> l in s.world.liens)
    && (l !in w.liens ==> taken == 0)
    && (l in w.liens ==>
          s.world.liens[l] == w.liens[l].(receipt := s.world.liens[l].receipt, status := s.world.liens[l].status,
                                          remaining := w.liens[l].remaining - taken))
    && (s.verdict.Done? ==> taken == LineSum(w.requests[id].lines[..n], l))
  }

  lemma NextLineTakes(w: World, s: Served, t: Served, id: nat, n: nat, l: nat, taken: int)
    requires id < |w.requests| && n < |w.requests[id].lines| && s.world.requests == w.requests && s.verdict.Done?
    requires Took(w, s, id, n, l, taken) && LineStarts(s.world, id, n) && LineEnds(s.world, t, id, n)
    ensures Took(w, t, id, n + 1, l,
                 taken + if w.requests[id].lines[n].lien == l && t.verdict.Done?
                         then w.requests[id].lines[n].quantity else 0)
  {
    hide RowsAged;
    var lines := w.requests[id].lines;
    assert lines[..n + 1][..n] == lines[..n];
  }

  lemma {:induction false} LinesTake(w: World, id: nat, n: nat, g: int, l: nat)
    requires g > 0 && Attached(w) && Rounded(w.db.receipts, g)
    requires id < |w.requests| && w.requests[id].status.Pending? && Releasable(w, w.requests[id].lines)
    requires n <= |w.requests[id].lines|
    requires forall k :: 0 <= k < |w.requests[id].lines| ==> w.requests[id].lines[k].lien in w.liens
    ensures Took(w, StoredReleaseLines(w, w.liens, id, n, g), id, n, l, CarriedOut(w, id, n, g, l))
  {
    hide Attached, StoredReleaseLine, Rounded, Weighs, LineEnds, Took, MidLoop;
    if n == 0 {
      NothingTaken(w, id, l);
    } else {
      LinesTake(w, id, n - 1, g, l);
      LinesKeepAttached(w, id, n - 1, g, l, LeafOverRow(w, l));
      var s := StoredReleaseLines(w, w.liens, id, n - 1, g);
      if s.verdict.Done? {
        NextLineIsFromTheSnapshot(w, s, id, n - 1, g);
        LineEndsAttached(s.world, id, n - 1, g);
        NextLineTakes(w, s, StoredReleaseLines(w, w.liens, id, n, g), id, n - 1, l, CarriedOut(w, id, n - 1, g, l));
      } else {
        RefusedTakesNoMore(w, s, id, n - 1, l, CarriedOut(w, id, n - 1, g, l));
      }
    }
  }

  lemma NothingTaken(w: World, id: nat, l: nat)
    requires id < |w.requests|
    ensures Took(w, Served(w, Done), id, 0, l, 0)
  {
  }

  lemma RefusedTakesNoMore(w: World, s: Served, id: nat, n: nat, l: nat, taken: int)
    requires id < |w.requests| && n < |w.requests[id].lines| && s.verdict.Refused? && Took(w, s, id, n, l, taken)
    ensures Took(w, s, id, n + 1, l, taken)
  {
  }

  lemma NextLineIsFromTheSnapshot(w: World, s: Served, id: nat, n: nat, g: int)
    requires g > 0 && MidLoop(w, s, id, n, g) && s.verdict.Done? && n < |w.requests[id].lines|
    ensures Attached(s.world) && LineStarts(s.world, id, n) && s.world.requests == w.requests
    ensures w.requests[id].lines[n].lien in w.liens && LienOf(s.world, id, n) == w.liens[w.requests[id].lines[n].lien]
  {
    hide Attached, Rounded, RowsAged;
    assert LineStarts(s.world, id, n);
  }

  // ----- One action --------------------------------------------------------

  function ApprovalTook(w: World, id: nat, g: int, l: nat): int
    requires g > 0 && id < |w.requests| && Releasable(w, w.requests[id].lines)
  {
    assert forall k :: 0 <= k < |w.requests[id].lines| ==> LineReleasable(w, w.requests[id].lines[k]);
    CarriedOut(w, id, |w.requests[id].lines|, g, l)
  }

  /** What a call takes from lien `l` without booking it. */
  function StepGap(w: World, a: Action, g: int, l: nat): int
    requires g > 0
  {
    if a.ApproveReleaseRequest? && GateOf(w, a).Proceed? && StoredPerform(w, a, g).verdict.Refused?
    then ApprovalTook(w, a.id, g, l) else 0
  }

  function BookGap(actions: seq<Action>, g: int, l: nat): int
    requires g > 0
  {
    if actions == [] then 0
    else
      var before := actions[..|actions| - 1];
      BookGap(before, g, l) + StepGap(StoredRunActions(EMPTY_WORLD, before, g), actions[|actions| - 1], g, l)
  }

  ghost predicate BookedBut(w: World, l: nat, gap: int) {
    if l !in w.liens then gap == 0
    else !w.liens[l].forced ==>
      w.liens[l].quantity == w.liens[l].remaining + AskedOf(w.requests, RequestStatus.Approved, l) + gap
  }

  lemma {:induction false} UnknownLienIsNotAsked(receipts: seq<Receipt>, liens: map<nat, Lien>, requests: seq<Request>,
                                                 status: RequestStatus, l: nat)
    requires RequestsSound(receipts, liens, requests) && l !in liens
    ensures AskedOf(requests, status, l) == 0
  {
    hide LineSum;
    if requests != [] {
      var last := requests[|requests| - 1];
      UnknownLienIsNotAsked(receipts, liens, requests[..|requests| - 1], status, l);
      assert RequestSound(receipts, liens, last);
      forall k | 0 <= k < |last.lines|
        ensures last.lines[k].lien != l
      {
        assert LineSound(receipts, liens, last, last.lines[k]);
      }
      LineSumAbsent(last.lines, l);
    }
  }

  /** What the rows of a plain call do to the books of a lien. */
  ghost predicate PlainBooks(w: World, v: World, l: nat) {
    && (l in w.liens ==> l in v.liens && (v.liens[l] == w.liens[l] || v.liens[l].forced))
    && (l !in w.liens && l in v.liens ==> v.liens[l].quantity == v.liens[l].remaining)
    && AskedOf(v.requests, RequestStatus.Approved, l) == AskedOf(w.requests, RequestStatus.Approved, l)
  }

  lemma FinishBooksLiens(w: World, db: Db, a: Action, reply: Reply, l: nat)
    requires GateOf(w, a).Proceed? && Finish(w, db, a, reply).Some?
    ensures var v := Finish(w, db, a, reply).value;
            && (l in w.liens ==> l in v.liens && (v.liens[l] == w.liens[l] || v.liens[l].forced))
            && (l !in w.liens && l in v.liens ==> v.liens[l].quantity == v.liens[l].remaining)
  {
    hide CheckLines, TreeMass, AvailableForWithdrawal, Releasable;
  }

  lemma FinishBooksRequests(w: World, db: Db, a: Action, reply: Reply, l: nat)
    requires GateOf(w, a).Proceed? && Finish(w, db, a, reply).Some?
    ensures AskedOf(Finish(w, db, a, reply).value.requests, RequestStatus.Approved, l)
         == AskedOf(w.requests, RequestStatus.Approved, l)
  {
    hide Finish, GateOf, LineSum, AskedOf;
    FinishRequests(w, db, a, reply);
    var requests := Finish(w, db, a, reply).value.requests;
    if a.CreateReleaseRequest? {
      AskedPush(w.requests, requests[|w.requests|], RequestStatus.Approved, l);
    } else if a.CancelReleaseRequest? || a.RejectReleaseRequest? {
      AskedSet(w.requests, a.id, requests[a.id], RequestStatus.Approved, l);
    }
  }

  /** A plain call files a pending request, drops one, or leaves them. */
  lemma FinishRequests(w: World, db: Db, a: Action, reply: Reply)
    requires GateOf(w, a).Proceed? && Finish(w, db, a, reply).Some?
    ensures var requests, n := Finish(w, db, a, reply).value.requests, |w.requests|;
            if a.CreateReleaseRequest? then
              |requests| == n + 1 && requests == w.requests + [requests[n]] && requests[n].status.Pending?
            else if a.CancelReleaseRequest? || a.RejectReleaseRequest? then
              && a.id < n == |requests| && requests == w.requests[a.id := requests[a.id]]
              && w.requests[a.id].status.Pending?
              && (requests[a.id].status.Cancelled? || requests[a.id].status.Rejected?)
            else requests == w.requests
  {
    hide TreeMass, AvailableForWithdrawal, Releasable, CheckLines;
  }

  lemma PlainActionBooks(w: World, a: Action, g: int, l: nat)
    requires g > 0 && !a.ApproveReleaseRequest?
    ensures PlainBooks(w, StoredPerform(w, a, g).world, l)
  {
    hide GateOf, LedgerCall, Finish, StoredInvoke, AskedOf;
    if GateOf(w, a).Proceed? {
      var call := LedgerCall(w, a);
      if call.None? {
        if Finish(w, w.db, a, Node(0)).Some? {
          FinishBooksLiens(w, w.db, a, Node(0), l);
          FinishBooksRequests(w, w.db, a, Node(0), l);
        }
      } else {
        var o := StoredInvoke(w.db, call.value, g);
        if o.reply.Ok? && Finish(w, o.db, a, o.reply.value).Some? {
          FinishBooksLiens(w, o.db, a, o.reply.value, l);
          FinishBooksRequests(w, o.db, a, o.reply.value, l);
        }
      }
    }
  }

  lemma PlainActionKeepsBooks(w: World, a: Action, g: int, l: nat, gap: int)
    requires g > 0 && Attached(w) && BookedBut(w, l, gap) && !a.ApproveReleaseRequest?
    ensures BookedBut(StoredPerform(w, a, g).world, l, gap)
  {
    PlainActionBooks(w, a, g, l);
    hide StoredPerform, AskedOf, Framed, Joined, KeysFree, LineEventsFit, LiensFit, RequestsSound, PledgesSound,
         WithdrawalsFit;
    if l !in w.liens {
      UnknownLienIsNotAsked(w.db.receipts, w.liens, w.requests, RequestStatus.Approved, l);
    }
  }

  lemma ApprovalKeepsGap(w: World, id: nat, g: int, l: nat, gap: int)
    requires g > 0 && Attached(w) && Rounded(w.db.receipts, g) && BookedBut(w, l, gap)
    requires id < |w.requests| && w.requests[id].status.Pending? && Releasable(w, w.requests[id].lines)
    ensures var s := StoredApproveRequest(w, id, g);
            BookedBut(s.world, l, gap + if s.verdict.Refused? then ApprovalTook(w, id, g, l) else 0)
  {
    hide Attached, Rounded, AskedOf, LineSum, StoredReleaseLines, Releasable, CarriedOut;
    ReleasableLiens(w, w.requests[id].lines);
    var lines := w.requests[id].lines;
    LinesTake(w, id, |lines|, g, l);
    assert lines[..|lines|] == lines;
    var s := StoredReleaseLines(w, w.liens, id, |lines|, g);
    if s.verdict.Done? {
      AskedSet(w.requests, id, w.requests[id].(status := RequestStatus.Approved), RequestStatus.Approved, l);
    }
  }

  lemma ActionKeepsGap(w: World, a: Action, g: int, l: nat, gap: int)
    requires g > 0 && Attached(w) && Rounded(w.db.receipts, g) && BookedBut(w, l, gap)
    ensures BookedBut(StoredPerform(w, a, g).world, l, gap + StepGap(w, a, g, l))
  {
    hide Attached, Rounded, BookedBut, GateOf, StoredApproveRequest, ApprovalTook;
    if !a.ApproveReleaseRequest? {
      hide StoredPerform;
      PlainActionKeepsBooks(w, a, g, l, gap);
    } else if GateOf(w, a).Proceed? {
      ApprovalUnfolds(w, a, g);
      ApprovalKeepsGap(w, a.id, g, l, gap);
    }
  }

  lemma {:induction false} LinesTakeNothingBack(w: World, id: nat, n: nat, g: int, l: nat)
    requires g > 0 && id < |w.requests| && n <= |w.requests[id].lines|
    requires forall k :: 0 <= k < |w.requests[id].lines| ==>
               w.requests[id].lines[k].lien in w.liens && w.requests[id].lines[k].quantity > 0
    ensures CarriedOut(w, id, n, g, l) >= 0
  {
    hide StoredReleaseLines;
    if n > 0 {
      LinesTakeNothingBack(w, id, n - 1, g, l);
    }
  }

  lemma LinesArePositiveHere(w: World, id: nat)
    requires Attached(w) && id < |w.requests|
    ensures forall k :: 0 <= k < |w.requests[id].lines| ==> w.requests[id].lines[k].quantity > 0
  {
    hide Framed, Joined, KeysFree, LineEventsFit, LiensFit, PledgesSound, WithdrawalsFit;
    assert RequestSound(w.db.receipts, w.liens, w.requests[id]);
    forall k | 0 <= k < |w.requests[id].lines|
      ensures w.requests[id].lines[k].quantity > 0
    {
      assert LineSound(w.db.receipts, w.liens, w.requests[id], w.requests[id].lines[k]);
    }
  }

  lemma StepsTakeNothingBack(w: World, a: Action, g: int, l: nat)
    requires g > 0 && Attached(w)
    ensures StepGap(w, a, g, l) >= 0
  {
    hide Attached, GateOf, StoredPerform, Releasable, CarriedOut;
    if a.ApproveReleaseRequest? && GateOf(w, a).Proceed? {
      ApprovalUnfolds(w, a, g);
      ReleasableLiens(w, w.requests[a.id].lines);
      LinesArePositiveHere(w, a.id);
      LinesTakeNothingBack(w, a.id, |w.requests[a.id].lines|, g, l);
    }
  }

  // ----- Reservations ------------------------------------------------------

  /** Pending requests ask of a lien at most what remains and what was taken unbooked. */
  ghost predicate ReservedWithin(w: World, l: nat, gap: int) {
    l in w.liens && !w.liens[l].forced ==> AskedOf(w.requests, RequestStatus.Pending, l) <= w.liens[l].remaining + gap
  }

  lemma DroppingAsksLess(w: World, id: nat, r: Request, l: nat)
    requires Attached(w) && id < |w.requests| && w.requests[id].status.Pending? && !r.status.Pending?
    ensures AskedOf(w.requests[id := r], RequestStatus.Pending, l) <= AskedOf(w.requests, RequestStatus.Pending, l)
  {
    hide Attached, LineSum, AskedOf;
    LinesArePositiveHere(w, id);
    LineSumNonnegative(w.requests[id].lines, l);
    AskedSet(w.requests, id, r, RequestStatus.Pending, l);
  }

  lemma {:induction false} InputsAsk(w: World, caller: User, financier: string, inputs: seq<LineInput>, l: nat)
    requires CheckLines(w, caller, financier, inputs).Proceed? && DistinctInputs(inputs)
    requires forall k :: 0 <= k < |inputs| ==> inputs[k].lien in w.liens
    ensures LineSum(LinesOf(w, inputs), l) == 0
         || (l in w.liens
             && AskedOf(w.requests, RequestStatus.Pending, l) + LineSum(LinesOf(w, inputs), l) <= w.liens[l].remaining)
  {
    hide AskedOf, LineSum, CheckLines;
    var lines := LinesOf(w, inputs);
    if k: nat :| k < |inputs| && inputs[k].lien == l {
      assert CheckLine(w, caller, financier, inputs[k]).Proceed?;
      LineSumDistinct(lines, k);
    } else {
      LineSumAbsent(lines, l);
    }
  }

  lemma FilingAsks(w: World, db: Db, a: Action, reply: Reply, l: nat)
    requires a.CreateReleaseRequest? && GateOf(w, a).Proceed? && DistinctInputs(a.inputs)
    requires Finish(w, db, a, reply).Some?
    ensures var asked := AskedOf(Finish(w, db, a, reply).value.requests, RequestStatus.Pending, l);
            || asked == AskedOf(w.requests, RequestStatus.Pending, l)
            || (l in w.liens && asked <= w.liens[l].remaining)
  {
    hide GateOf, AskedOf, LineSum, CheckLines, LinesOf;
    RequestChecksLines(w, a);
    InputsAreOnFile(w, a.caller, a.financier, a.inputs);
    InputsAsk(w, a.caller, a.financier, a.inputs, l);
    AskedPush(w.requests, Request(a.caller.tenant, a.caller, a.financier, LinesOf(w, a.inputs), RequestStatus.Pending),
              RequestStatus.Pending, l);
  }

  /** What a plain call leaves pending on a lien: no more than before, or than remains of it. */
  lemma FinishAsks(w: World, db: Db, a: Action, reply: Reply, l: nat)
    requires Attached(w) && GateOf(w, a).Proceed? && Finish(w, db, a, reply).Some?
    requires a.CreateReleaseRequest? ==> DistinctInputs(a.inputs)
    ensures var asked := AskedOf(Finish(w, db, a, reply).value.requests, RequestStatus.Pending, l);
            || asked <= AskedOf(w.requests, RequestStatus.Pending, l)
            || (l in w.liens && asked <= w.liens[l].remaining)
  {
    hide Attached, Finish, GateOf, AskedOf, DistinctInputs;
    FinishRequests(w, db, a, reply);
    var requests := Finish(w, db, a, reply).value.requests;
    if a.CreateReleaseRequest? {
      FilingAsks(w, db, a, reply, l);
    } else if a.CancelReleaseRequest? || a.RejectReleaseRequest? {
      DroppingAsksLess(w, a.id, requests[a.id], l);
    }
  }

  lemma PlainActionAsks(w: World, a: Action, g: int, l: nat)
    requires g > 0 && Attached(w) && !a.ApproveReleaseRequest? && (a.CreateReleaseRequest? ==> DistinctInputs(a.inputs))
    ensures var asked := AskedOf(StoredPerform(w, a, g).world.requests, RequestStatus.Pending, l);
            || asked <= AskedOf(w.requests, RequestStatus.Pending, l)
            || (l in w.liens && asked <= w.liens[l].remaining)
  {
    hide Attached, GateOf, LedgerCall, Finish, StoredInvoke, AskedOf, DistinctInputs;
    if GateOf(w, a).Proceed? {
      var call := LedgerCall(w, a);
      if call.None? {
        if Finish(w, w.db, a, Node(0)).Some? { FinishAsks(w, w.db, a, Node(0), l); }
      } else {
        var o := StoredInvoke(w.db, call.value, g);
        if o.reply.Ok? && Finish(w, o.db, a, o.reply.value).Some? { FinishAsks(w, o.db, a, o.reply.value, l); }
      }
    }
  }

  lemma PlainActionKeepsReserved(w: World, a: Action, g: int, l: nat, gap: int)
    requires g > 0 && Attached(w) && Attached(StoredPerform(w, a, g).world) && ReservedWithin(w, l, gap) && gap >= 0
    requires !a.ApproveReleaseRequest? && (a.CreateReleaseRequest? ==> DistinctInputs(a.inputs))
    ensures ReservedWithin(StoredPerform(w, a, g).world, l, gap)
  {
    hide Attached, StoredPerform, AskedOf, DistinctInputs, RequestsSound;
    PlainActionBooks(w, a, g, l);
    PlainActionAsks(w, a, g, l);
    RequestsAttached(w);
    LiensAttached(StoredPerform(w, a, g).world);
    if l !in w.liens {
      UnknownLienIsNotAsked(w.db.receipts, w.liens, w.requests, RequestStatus.Pending, l);
      if l in StoredPerform(w, a, g).world.liens {
        assert LienFits(StoredPerform(w, a, g).world.liens[l]);
      }
    }
  }

  lemma RequestsAttached(w: World)
    requires Attached(w)
    ensures RequestsSound(w.db.receipts, w.liens, w.requests)
  {
    hide RequestsSound;
  }

  lemma ApprovalKeepsReserved(w: World, id: nat, g: int, l: nat, gap: int)
    requires g > 0 && Attached(w) && Rounded(w.db.receipts, g) && ReservedWithin(w, l, gap)
    requires id < |w.requests| && w.requests[id].status.Pending? && Releasable(w, w.requests[id].lines)
    ensures var s := StoredApproveRequest(w, id, g);
            ReservedWithin(s.world, l, gap + if s.verdict.Refused? then ApprovalTook(w, id, g, l) else 0)
  {
    hide Attached, Rounded, AskedOf, LineSum, StoredReleaseLines, Releasable, CarriedOut;
    ReleasableLiens(w, w.requests[id].lines);
    var lines := w.requests[id].lines;
    LinesTake(w, id, |lines|, g, l);
    assert lines[..|lines|] == lines;
    var s := StoredReleaseLines(w, w.liens, id, |lines|, g);
    if s.verdict.Done? {
      AskedSet(w.requests, id, w.requests[id].(status := RequestStatus.Approved), RequestStatus.Pending, l);
    }
  }

  lemma ActionKeepsReserved(w: World, a: Action, g: int, l: nat, gap: int)
    requires g > 0 && Attached(w) && Rounded(w.db.receipts, g) && Attached(StoredPerform(w, a, g).world)
    requires ReservedWithin(w, l, gap) && gap >= 0 && (a.CreateReleaseRequest? ==> DistinctInputs(a.inputs))
    ensures ReservedWithin(StoredPerform(w, a, g).world, l, gap + StepGap(w, a, g, l))
  {
    hide Attached, Rounded, ReservedWithin, GateOf, StoredApproveRequest, ApprovalTook, DistinctInputs;
    if !a.ApproveReleaseRequest? {
      hide StoredPerform;
      PlainActionKeepsReserved(w, a, g, l, gap);
    } else if GateOf(w, a).Proceed? {
      ApprovalUnfolds(w, a, g);
      ApprovalKeepsReserved(w, a.id, g, l, gap);
    }
  }

  // ----- Every run ---------------------------------------------------------

  lemma NothingBooked(l: nat)
    ensures BookedBut(EMPTY_WORLD, l, 0) && ReservedWithin(EMPTY_WORLD, l, 0)
  {
  }

  lemma {:induction false} RunKeepsGap(actions: seq<Action>, g: int, l: nat)
    requires g > 0 && AdmissibleStoredRun(actions, g)
    ensures var w, gap := StoredRunActions(EMPTY_WORLD, actions, g), BookGap(actions, g, l);
            BookedBut(w, l, gap) && ReservedWithin(w, l, gap) && gap >= 0
  {
    hide StoredPerform, BookedBut, ReservedWithin, Attached, Rounded, Weighed, StepGap, FreshId, Priced, DeskCall,
         DistinctInputs;
    if actions == [] {
      NothingBooked(l);
    } else {
      var before, a := actions[..|actions| - 1], actions[|actions| - 1];
      var w, gap := StoredRunActions(EMPTY_WORLD, before, g), BookGap(before, g, l);
      RunKeepsGap(before, g, l);
      ReachableEnds(before, g, Claim(LienClaim, l));
      ReachableEnds(actions, g, Claim(LienClaim, l));
      StepsTakeNothingBack(w, a, g, l);
      ActionKeepsGap(w, a, g, l, gap);
      ActionKeepsReserved(w, a, g, l, gap);
    }
  }

  /** After any admissible run a lien never force-released accounts for at most what it was
      granted: what is missing is exactly what refused approvals had taken from it, and its books
      hold if and only if that is nothing. Pending requests ask of it at most what remains and
      what is missing. */
  lemma ReachableBooksIffNothingUnbooked(actions: seq<Action>, g: int, l: nat)
    requires g > 0 && AdmissibleStoredRun(actions, g)
    ensures var w := StoredRunActions(EMPTY_WORLD, actions, g);
            l in w.liens && !w.liens[l].forced ==>
              && w.liens[l].quantity
                 == w.liens[l].remaining + AskedOf(w.requests, RequestStatus.Approved, l) + BookGap(actions, g, l)
              && BookGap(actions, g, l) >= 0 && (Booked(w, l) <==> BookGap(actions, g, l) == 0)
              && AskedOf(w.requests, RequestStatus.Pending, l) <= w.liens[l].remaining + BookGap(actions, g, l)
  {
    hide StoredRunActions, AdmissibleStoredRun, BookGap, AskedOf;
    RunKeepsGap(actions, g, l);
  }
}
