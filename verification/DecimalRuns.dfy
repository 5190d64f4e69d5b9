/** Every run of service calls is a run of ledger calls: what is proved of the runs of the
    ledger over rounding columns is proved of the services on top of it. */
module DecimalRuns {
  import opened Ledger
  import opened LedgerInvariant
  import opened Tables
  import opened Services
  import opened ApprovalLoop
  import opened Decimals
  import opened DecimalServices

  /** The ledger calls the first `n` lines of an approval make. */
  function LineCalls(w: World, id: nat, n: nat, g: int): seq<Call>
    requires g > 0 && id < |w.requests| && n <= |w.requests[id].lines|
    requires forall k :: 0 <= k < |w.requests[id].lines| ==> w.requests[id].lines[k].lien in w.liens
  {
    if n == 0 then []
    else
      LineCalls(w, id, n - 1, g)
      + (if StoredReleaseLines(w, w.liens, id, n - 1, g).verdict.Done? then [CallOf(w, id, n - 1)] else [])
  }

  function ApprovalCalls(w: World, id: nat, g: int): seq<Call>
    requires g > 0 && id < |w.requests| && Releasable(w, w.requests[id].lines)
  {
    assert forall k :: 0 <= k < |w.requests[id].lines| ==> LineReleasable(w, w.requests[id].lines[k]);
    LineCalls(w, id, |w.requests[id].lines|, g)
  }

  function CallsOf(w: World, a: Action, g: int): seq<Call>
    requires g > 0
  {
    if !GateOf(w, a).Proceed? then []
    else if a.ApproveReleaseRequest? then ApprovalCalls(w, a.id, g)
    else if LedgerCall(w, a).Some? then [LedgerCall(w, a).value]
    else []
  }

  function CallsOfRun(actions: seq<Action>, g: int): seq<Call>
    requires g > 0
  {
    if actions == [] then []
    else
      var before := actions[..|actions| - 1];
      CallsOfRun(before, g) + CallsOf(StoredRunActions(EMPTY_WORLD, before, g), actions[|actions| - 1], g)
  }

  lemma OneCall(db: Db, call: Call, g: int)
    requires g > 0
    ensures StoredRun(db, [call], g) == StoredInvoke(db, call, g).db
  {
    hide StoredInvoke;
    assert [call][..0] == [];
  }

  lemma {:induction false} RunAppend(db: Db, calls: seq<Call>, more: seq<Call>, g: int)
    requires g > 0
    ensures StoredRun(db, calls + more, g) == StoredRun(StoredRun(db, calls, g), more, g)
  {
    hide StoredInvoke;
    if more == [] {
      assert calls + more == calls;
    } else {
      RunAppend(db, calls, more[..|more| - 1], g);
      assert (calls + more)[..|calls + more| - 1] == calls + more[..|more| - 1];
    }
  }

  lemma LineIsItsCall(w: World, v: World, id: nat, k: nat, g: int)
    requires g > 0 && id < |w.requests| && k < |w.requests[id].lines| && w.requests[id].lines[k].lien in w.liens
    requires v.requests == w.requests
    ensures StoredReleaseLine(v, id, k, w.requests[id].lines[k], LienOf(w, id, k), g).world.db
         == StoredInvoke(v.db, CallOf(w, id, k), g).db
  {
    hide StoredInvoke;
  }

  lemma {:induction false} LinesAreTheirCalls(w: World, id: nat, n: nat, g: int)
    requires g > 0 && id < |w.requests| && n <= |w.requests[id].lines|
    requires forall k :: 0 <= k < |w.requests[id].lines| ==> w.requests[id].lines[k].lien in w.liens
    ensures StoredReleaseLines(w, w.liens, id, n, g).world.db == StoredRun(w.db, LineCalls(w, id, n, g), g)
  {
    hide StoredInvoke, StoredReleaseLine, CallOf;
    if n > 0 {
      LinesAreTheirCalls(w, id, n - 1, g);
      var before := StoredReleaseLines(w, w.liens, id, n - 1, g);
      if before.verdict.Done? {
        LineIsItsCall(w, before.world, id, n - 1, g);
        RunAppend(w.db, LineCalls(w, id, n - 1, g), [CallOf(w, id, n - 1)], g);
        OneCall(before.world.db, CallOf(w, id, n - 1), g);
      } else {
        assert LineCalls(w, id, n, g) == LineCalls(w, id, n - 1, g);
      }
    }
  }

  lemma ApprovalIsItsCalls(w: World, id: nat, g: int)
    requires g > 0 && id < |w.requests| && Releasable(w, w.requests[id].lines)
    ensures StoredApproveRequest(w, id, g).world.db == StoredRun(w.db, ApprovalCalls(w, id, g), g)
  {
    hide StoredReleaseLines, LineCalls, Releasable;
    ReleasableLiens(w, w.requests[id].lines);
    LinesAreTheirCalls(w, id, |w.requests[id].lines|, g);
  }

  lemma ActionIsItsCalls(w: World, a: Action, g: int)
    requires g > 0
    ensures StoredPerform(w, a, g).world.db == StoredRun(w.db, CallsOf(w, a, g), g)
  {
    if !GateOf(w, a).Proceed? {
    } else if a.ApproveReleaseRequest? {
      ApprovalIsItsCalls(w, a.id, g) by { hide StoredApproveRequest, ApprovalCalls; }
      hide StoredApproveRequest, ApprovalCalls, StoredRun, Releasable;
    } else {
      hide GateOf, LedgerCall, Finish, StoredInvoke;
      PlainActionIsItsCall(w, a, g);
    }
  }

  lemma PlainActionIsItsCall(w: World, a: Action, g: int)
    requires g > 0 && GateOf(w, a).Proceed? && !a.ApproveReleaseRequest?
    ensures StoredPerform(w, a, g).world.db == StoredRun(w.db, CallsOf(w, a, g), g)
  {
    hide GateOf, LedgerCall, Finish, StoredInvoke;
    var call := LedgerCall(w, a);
    if call.None? {
      if Finish(w, w.db, a, Node(0)).Some? { FinishKeepsRows(w, w.db, a, Node(0)); }
    } else {
      OneCall(w.db, call.value, g);
      var o := StoredInvoke(w.db, call.value, g);
      if o.reply.Ok? && Finish(w, o.db, a, o.reply.value).Some? { FinishKeepsRows(w, o.db, a, o.reply.value); }
    }
  }

  /** The ledger under any run of service calls is what the calls of the run, made one after
      the other, leave. */
  lemma {:induction false} RunIsItsCalls(actions: seq<Action>, g: int)
    requires g > 0
    ensures StoredRunActions(EMPTY_WORLD, actions, g).db == StoredRun(EMPTY_DB, CallsOfRun(actions, g), g)
  {
    hide StoredPerform, CallsOf;
    if actions != [] {
      var before := actions[..|actions| - 1];
      var w := StoredRunActions(EMPTY_WORLD, before, g);
      RunIsItsCalls(before, g);
      ActionIsItsCalls(w, actions[|actions| - 1], g);
      RunAppend(EMPTY_DB, CallsOfRun(before, g), CallsOf(w, actions[|actions| - 1], g), g);
    }
  }

  /** So every state of the services is one the results about single calls speak of. */
  lemma ReachedIsRoundedAndFramed(actions: seq<Action>, g: int)
    requires g > 0
    ensures var db := StoredRunActions(EMPTY_WORLD, actions, g).db; Rounded(db.receipts, g) && Framed(db)
  {
    hide StoredRunActions, StoredRun, CallsOfRun, Rounded, Framed;
    RunIsItsCalls(actions, g);
    RunIsRounded(CallsOfRun(actions, g), g);
    StoredRunIsFramed(CallsOfRun(actions, g), g);
  }
}
