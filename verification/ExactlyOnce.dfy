/** Any number of callers of the ledger, interleaved step by step
    (src/inventory/inventory-ledger.service.ts, lines 46-69;
    src/inventory/inventory.tx.ts, lines 31-54).

    A caller looks its key up, tries its transaction with bounded retries on a
    serialization failure, and after a unique violation looks its key up again.
    A transaction is one atomic step that may abort. */
module ExactlyOnce {
  import opened InventoryTypes
  import opened Ledger
  import opened LedgerInvariant

  const RETRIES: nat := 3

  datatype Ending =
    | Committed(reply: Reply)
    | Replayed(rebuilt: Result<Reply>)
    | Threw(error: Error)
    | GaveUp

  datatype Phase = Idle | Trying(attempt: nat) | Rechecking | Done(ending: Ending)

  /** What the database does to the transaction a caller is about to run. */
  datatype Weather = Serializes | Aborts

  datatype System = System(db: Db, phases: seq<Phase>, commits: seq<nat>)

  datatype Turn = Turn(caller: nat, weather: Weather)

  function Initial(db: Db, calls: seq<Call>): System {
    System(db, seq(|calls|, i => Idle), [])
  }

  function Lookup(db: Db, call: Call): Option<Phase> {
    var prior := FindEvent(db.events, call.key);
    if prior.Some? then Some(Done(Replayed(Reconstruct(db, prior.value, call.op)))) else None
  }

  /** One step of one caller. */
  function Step(s: System, calls: seq<Call>, turn: Turn): (r: System)
    requires |s.phases| == |calls|
    ensures |r.phases| == |calls|
  {
    var i := turn.caller;
    if i >= |calls| then s
    else
      var call := calls[i];
      match s.phases[i]
      case Idle =>
        if !Admitted(call.op) then s.(phases := s.phases[i := Done(Threw(InsufficientQuantity))])
        else
          var found := Lookup(s.db, call);
          s.(phases := s.phases[i := if found.Some? then found.value else Trying(0)])
      case Trying(attempt) =>
        if turn.weather.Aborts? then
          s.(phases := s.phases[i := if attempt < RETRIES then Trying(attempt + 1) else Done(GaveUp)])
        else
          var tx := Transact(s.db, call);
          if tx.Ok? then System(tx.value, s.phases[i := Done(Committed(FreshReply(s.db, call.op)))], s.commits + [i])
          else s.(phases := s.phases[i := if tx.error == UniqueViolation then Rechecking else Done(Threw(tx.error))])
      case Rechecking =>
        var found := Lookup(s.db, call);
        s.(phases := s.phases[i := if found.Some? then found.value else Done(Threw(UniqueViolation))])
      case Done(_) => s
  }

  function Execute(s: System, calls: seq<Call>, schedule: seq<Turn>): (r: System)
    requires |s.phases| == |calls|
    ensures |r.phases| == |calls|
    decreases |schedule|
  {
    if schedule == [] then s
    else Step(Execute(s, calls, schedule[..|schedule| - 1]), calls, schedule[|schedule| - 1])
  }

  /** The committed calls, in commit order. */
  function CommittedCalls(calls: seq<Call>, commits: seq<nat>): seq<Call>
    requires forall k :: 0 <= k < |commits| ==> commits[k] < |calls|
  {
    seq(|commits|, k requires 0 <= k < |commits| => calls[commits[k]])
  }

  ghost predicate CommitsFit(calls: seq<Call>, s: System)
    requires |s.phases| == |calls|
  {
    && (forall k :: 0 <= k < |s.commits| ==> s.commits[k] < |calls| && CommitFits(calls, s, s.commits[k]))
    && (forall j, k :: 0 <= j < k < |s.commits| ==> calls[s.commits[j]].key != calls[s.commits[k]].key)
  }

  ghost predicate CommitFits(calls: seq<Call>, s: System, i: nat)
    requires |s.phases| == |calls| && i < |calls|
  {
    && s.phases[i].Done? && s.phases[i].ending.Committed?
    && KeyUsed(s.db.events, calls[i].key)
  }

  ghost predicate PhasesFit(calls: seq<Call>, s: System)
    requires |s.phases| == |calls|
  {
    forall i: nat {:trigger s.phases[i]} :: i < |calls| ==> PhaseFits(s, calls[i], s.phases[i], i)
  }

  ghost predicate Consistent(start: Db, calls: seq<Call>, s: System) {
    && |s.phases| == |calls|
    && Sound(s.db)
    && CommitsFit(calls, s)
    && s.db == Run(start, CommittedCalls(calls, s.commits))
    && PhasesFit(calls, s)
  }

  ghost predicate PhaseFits(s: System, call: Call, phase: Phase, i: nat) {
    match phase
    case Idle => true
    case Trying(attempt) => attempt <= RETRIES && Admitted(call.op)
    case Rechecking => Admitted(call.op)
    case Done(Committed(_)) => i in s.commits
    case Done(Replayed(_)) => KeyUsed(s.db.events, call.key)
    case Done(_) => true
  }

  lemma FoundIsUsed(events: seq<Event>, key: Key)
    ensures FindEvent(events, key).Some? <==> KeyUsed(events, key)
  {
    var found := FindEvent(events, key);
    if found.Some? {
      assert events[found.value].key == key;
    }
  }

  /** A used key never commits again. */
  lemma UsedKeyCannotCommit(db: Db, call: Call)
    requires Sound(db) && Admitted(call.op) && KeyUsed(db.events, call.key)
    ensures Transact(db, call).Err?
  {
    if Plan(db, call).Ok? {
      FirstEventCarriesTheKey(db, call);
      hide Plan, Sound;
      var w := Plan(db, call).value;
      assert KeyUsed(db.events, w.events[0].key);
    }
  }

  lemma FirstEventCarriesTheKey(db: Db, call: Call)
    requires Plan(db, call).Ok?
    ensures Plan(db, call).value.events != [] && Plan(db, call).value.events[0].key == call.key
  {
    hide SplitSuffixes, Numbers, Child, Partition, KeyUsed;
  }

  /** A transaction that commits is the whole call run alone at that moment. */
  lemma CommitIsTheCall(db: Db, call: Call)
    requires Sound(db) && Admitted(call.op) && Transact(db, call).Ok?
    ensures Invoke(db, call) == Outcome(Transact(db, call).value, Ok(FreshReply(db, call.op)))
    ensures KeyUsed(Transact(db, call).value.events, call.key)
    ensures forall key :: KeyUsed(db.events, key) ==> KeyUsed(Transact(db, call).value.events, key)
    ensures !KeyUsed(db.events, call.key)
  {
    FirstEventCarriesTheKey(db, call);
    FoundIsUsed(db.events, call.key);
    if KeyUsed(db.events, call.key) {
      UsedKeyCannotCommit(db, call);
    }
    hide Plan, Sound, FreshReply, Reconstruct, Collides, Changed;
    var w := Plan(db, call).value;
    var after := db.events + w.events;
    assert after[|db.events|].key == call.key;
    forall key | KeyUsed(db.events, key)
      ensures KeyUsed(after, key)
    {
      var e :| 0 <= e < |db.events| && db.events[e].key == key;
      assert after[e].key == key;
    }
  }

  lemma RunExtends(start: Db, calls: seq<Call>, call: Call)
    ensures Run(start, calls + [call]) == Invoke(Run(start, calls), call).db
  {
    assert (calls + [call])[..|calls|] == calls;
  }

  lemma CommitKeepsPhases(calls: seq<Call>, s: System, i: nat, reply: Reply, db: Db)
    requires |s.phases| == |calls| && i < |calls| && PhasesFit(calls, s)
    requires forall key :: KeyUsed(s.db.events, key) ==> KeyUsed(db.events, key)
    ensures PhasesFit(calls, System(db, s.phases[i := Done(Committed(reply))], s.commits + [i]))
  {
    hide KeyUsed;
    var after := System(db, s.phases[i := Done(Committed(reply))], s.commits + [i]);
    forall j: nat | j < |calls|
      ensures PhaseFits(after, calls[j], after.phases[j], j)
    {
      assert PhaseFits(s, calls[j], s.phases[j], j);
      assert after.commits[|s.commits|] == i;
      assert j in s.commits ==> j in after.commits;
    }
  }

  lemma CommitKeepsCommits(calls: seq<Call>, s: System, i: nat, reply: Reply, db: Db)
    requires |s.phases| == |calls| && i < |calls| && CommitsFit(calls, s)
    requires forall key :: KeyUsed(s.db.events, key) ==> KeyUsed(db.events, key)
    requires !KeyUsed(s.db.events, calls[i].key) && KeyUsed(db.events, calls[i].key)
    ensures CommitsFit(calls, System(db, s.phases[i := Done(Committed(reply))], s.commits + [i]))
  {
    hide KeyUsed;
    forall k | 0 <= k < |s.commits|
      ensures s.commits[k] != i && calls[s.commits[k]].key != calls[i].key
    {
      assert CommitFits(calls, s, s.commits[k]);
    }
  }

  lemma CommitStepIsConsistent(start: Db, calls: seq<Call>, s: System, turn: Turn)
    requires Consistent(start, calls, s) && turn.caller < |calls|
    requires s.phases[turn.caller].Trying? && turn.weather.Serializes?
    requires Transact(s.db, calls[turn.caller]).Ok?
    ensures Consistent(start, calls, Step(s, calls, turn))
  {
    hide Sound, Transact, Invoke, Run, KeyUsed, FreshReply, CommitsFit, PhasesFit;
    var i := turn.caller;
    var call, after := calls[i], Step(s, calls, turn);
    assert Admitted(call.op) by { PhaseAt(calls, s, i); }
    CommitIsTheCall(s.db, call);
    CallKeepsSound(s.db, call);
    CommitKeepsPhases(calls, s, i, FreshReply(s.db, call.op), after.db);
    CommitKeepsCommits(calls, s, i, FreshReply(s.db, call.op), after.db);
    assert forall k :: 0 <= k < |s.commits| ==> s.commits[k] < |calls| by { CommitsInRange(calls, s); }
    RunExtends(start, CommittedCalls(calls, s.commits), call);
    assert forall k :: 0 <= k < |after.commits| ==> after.commits[k] < |calls| by { CommitsInRange(calls, after); }
    assert CommittedCalls(calls, after.commits) == CommittedCalls(calls, s.commits) + [call];
  }

  lemma CommitsInRange(calls: seq<Call>, s: System)
    requires |s.phases| == |calls| && CommitsFit(calls, s)
    ensures forall k :: 0 <= k < |s.commits| ==> s.commits[k] < |calls|
  {
  }

  lemma PhaseAt(calls: seq<Call>, s: System, i: nat)
    requires |s.phases| == |calls| && PhasesFit(calls, s) && i < |calls|
    ensures PhaseFits(s, calls[i], s.phases[i], i)
  {
  }

  lemma StepIsConsistent(start: Db, calls: seq<Call>, s: System, turn: Turn)
    requires Consistent(start, calls, s)
    ensures Consistent(start, calls, Step(s, calls, turn))
  {
    var i := turn.caller;
    if i < |calls| {
      if s.phases[i].Trying? && turn.weather.Serializes? && Transact(s.db, calls[i]).Ok? {
        hide Step, Sound, Transact, Run, KeyUsed, CommitsFit, PhasesFit;
        CommitStepIsConsistent(start, calls, s, turn);
      } else {
        hide Sound, Transact, Run, KeyUsed, Reconstruct;
        FoundIsUsed(s.db.events, calls[i].key);
        var after := Step(s, calls, turn);
        assert after.db == s.db && after.commits == s.commits;
        PhaseAt(calls, s, i);
        forall j: nat | j < |calls|
          ensures PhaseFits(after, calls[j], after.phases[j], j)
        {
          PhaseAt(calls, s, j);
        }
        forall k | 0 <= k < |s.commits|
          ensures CommitFits(calls, after, s.commits[k])
        {
          assert CommitFits(calls, s, s.commits[k]);
        }
      }
    }
  }

  lemma {:induction false} ExecutionIsConsistent(start: Db, calls: seq<Call>, schedule: seq<Turn>)
    requires Sound(start)
    ensures Consistent(start, calls, Execute(Initial(start, calls), calls, schedule))
  {
    if schedule != [] {
      ExecutionIsConsistent(start, calls, schedule[..|schedule| - 1]);
      StepIsConsistent(start, calls, Execute(Initial(start, calls), calls, schedule[..|schedule| - 1]),
                       schedule[|schedule| - 1]);
    }
  }

  predicate Answered(ending: Ending) {
    ending.Committed? || ending.Replayed?
  }

  /** Exactly once under interleaving: whatever the schedule and the failures,
      the database is what the committed calls leave when run alone in commit
      order; no two of them share a key; and the callers that committed are exactly
      those that report a commit, so a caller that threw, gave up or replayed
      changed nothing. */
  lemma InterleavingIsSerial(start: Db, calls: seq<Call>, schedule: seq<Turn>)
    requires Sound(start)
    ensures var s := Execute(Initial(start, calls), calls, schedule);
            && (forall k :: 0 <= k < |s.commits| ==> s.commits[k] < |calls|)
            && Sound(s.db)
            && s.db == Run(start, CommittedCalls(calls, s.commits))
            && (forall j, k :: 0 <= j < k < |s.commits| ==> calls[s.commits[j]].key != calls[s.commits[k]].key)
            && (forall i :: 0 <= i < |calls| ==>
                  (i in s.commits <==> s.phases[i].Done? && s.phases[i].ending.Committed?))
            && (forall i | 0 <= i < |calls| && s.phases[i].Done? && Answered(s.phases[i].ending) ::
                  KeyUsed(s.db.events, calls[i].key))
  {
    ExecutionIsConsistent(start, calls, schedule);
    var s := Execute(Initial(start, calls), calls, schedule);
    hide Sound, Run, Execute, KeyUsed;
    forall i | 0 <= i < |calls|
      ensures i in s.commits <==> s.phases[i].Done? && s.phases[i].ending.Committed?
      ensures s.phases[i].Done? && Answered(s.phases[i].ending) ==> KeyUsed(s.db.events, calls[i].key)
    {
      PhaseAt(calls, s, i);
      if i in s.commits {
        assert CommitFits(calls, s, i);
      }
    }
  }

  // ----- Replies -----------------------------------------------------------

  /** The reply of the `k`-th commit is the one its call gives when run alone after the
      commits before it. */
  ghost predicate RepliesSerially(start: Db, calls: seq<Call>, s: System, k: nat)
    requires |s.phases| == |calls| && k < |s.commits|
    requires forall j :: 0 <= j < |s.commits| ==> s.commits[j] < |calls|
  {
    var i := s.commits[k];
    && s.phases[i].Done? && s.phases[i].ending.Committed?
    && Invoke(Run(start, CommittedCalls(calls, s.commits[..k])), calls[i]).reply == Ok(s.phases[i].ending.reply)
  }

  ghost predicate RepliesFit(start: Db, calls: seq<Call>, s: System)
    requires |s.phases| == |calls|
  {
    && (forall j :: 0 <= j < |s.commits| ==> s.commits[j] < |calls|)
    && forall k: nat :: k < |s.commits| ==> RepliesSerially(start, calls, s, k)
  }

  lemma CommittingStepReplies(start: Db, calls: seq<Call>, s: System, turn: Turn)
    requires Consistent(start, calls, s) && turn.caller < |calls|
    requires s.phases[turn.caller].Trying? && turn.weather.Serializes? && Transact(s.db, calls[turn.caller]).Ok?
    ensures var after := Step(s, calls, turn);
            && after.commits == s.commits + [turn.caller] && s.db == Run(start, CommittedCalls(calls, s.commits))
            && after.phases == s.phases[turn.caller := Done(Committed(FreshReply(s.db, calls[turn.caller].op)))]
            && Invoke(s.db, calls[turn.caller]).reply == Ok(FreshReply(s.db, calls[turn.caller].op))
  {
    hide Sound, Transact, Run, KeyUsed, FreshReply, CommitsFit, PhasesFit, Invoke;
    PhaseAt(calls, s, turn.caller);
    CommitIsTheCall(s.db, calls[turn.caller]);
  }

  /** A step that does not commit keeps every finished caller and every commit. */
  lemma OtherStepsKeepDone(calls: seq<Call>, s: System, turn: Turn)
    requires |s.phases| == |calls|
    requires !(turn.caller < |calls| && s.phases[turn.caller].Trying? && turn.weather.Serializes?
               && Transact(s.db, calls[turn.caller]).Ok?)
    ensures var after := Step(s, calls, turn);
            && after.db == s.db && after.commits == s.commits
            && forall j :: 0 <= j < |calls| && s.phases[j].Done? ==> after.phases[j] == s.phases[j]
  {
    hide Transact, Reconstruct, FreshReply;
  }

  lemma StepKeepsReplies(start: Db, calls: seq<Call>, s: System, turn: Turn)
    requires |s.phases| == |calls|
    requires Consistent(start, calls, s) && RepliesFit(start, calls, s)
    ensures RepliesFit(start, calls, Step(s, calls, turn))
  {
    hide Step, Consistent, Transact, Run, Invoke, FreshReply;
    var after, i := Step(s, calls, turn), turn.caller;
    if i < |calls| && s.phases[i].Trying? && turn.weather.Serializes? && Transact(s.db, calls[i]).Ok? {
      CommittingStepReplies(start, calls, s, turn);
      forall k: nat | k < |after.commits|
        ensures RepliesSerially(start, calls, after, k)
      {
        if k < |s.commits| {
          assert RepliesSerially(start, calls, s, k);
          assert after.commits[..k] == s.commits[..k];
        } else {
          assert after.commits[..k] == s.commits;
        }
      }
    } else {
      OtherStepsKeepDone(calls, s, turn);
      forall k: nat | k < |after.commits|
        ensures RepliesSerially(start, calls, after, k)
      {
        assert RepliesSerially(start, calls, s, k);
      }
    }
  }

  /** Whatever the schedule, every caller that commits is told exactly what its call says
      when run alone in commit order. */
  lemma {:induction false} CommittedRepliesAreSerial(start: Db, calls: seq<Call>, schedule: seq<Turn>)
    requires Sound(start)
    ensures var s := Execute(Initial(start, calls), calls, schedule);
            RepliesFit(start, calls, s)
  {
    hide Sound, Step, Consistent, RepliesSerially;
    if schedule != [] {
      var front := schedule[..|schedule| - 1];
      CommittedRepliesAreSerial(start, calls, front);
      ExecutionIsConsistent(start, calls, front);
      StepKeepsReplies(start, calls, Execute(Initial(start, calls), calls, front), schedule[|schedule| - 1]);
    }
  }

  // ----- Late callers ------------------------------------------------------

  /** A late caller has not started, or was answered from the log, or was never admitted. */
  ghost predicate OnlyReads(s: System, calls: seq<Call>, i: nat)
    requires |s.phases| == |calls| && i < |calls|
  {
    && KeyUsed(s.db.events, calls[i].key) && i !in s.commits
    && (s.phases[i].Idle?
        || (s.phases[i].Done? && (s.phases[i].ending.Replayed? || s.phases[i].ending == Threw(InsufficientQuantity))))
  }

  lemma StepKeepsReader(start: Db, calls: seq<Call>, s: System, turn: Turn, i: nat)
    requires Consistent(start, calls, s) && i < |calls| && OnlyReads(s, calls, i)
    ensures OnlyReads(Step(s, calls, turn), calls, i)
  {
    hide Sound, Transact, Run, KeyUsed, FreshReply, CommitsFit, Reconstruct;
    var j := turn.caller;
    if j < |calls| && s.phases[j].Trying? && turn.weather.Serializes? && Transact(s.db, calls[j]).Ok? {
      PhaseAt(calls, s, j);
      CommitIsTheCall(s.db, calls[j]);
    } else {
      FoundIsUsed(s.db.events, calls[i].key);
    }
  }

  /** A caller that starts after its key is on file never commits, however the rest of the
      schedule goes: it only reads. */
  lemma {:induction false} LateCallerNeverCommits(start: Db, calls: seq<Call>, before: seq<Turn>, rest: seq<Turn>,
                                                  i: nat)
    requires Sound(start) && i < |calls|
    requires Execute(Initial(start, calls), calls, before).phases[i].Idle?
    requires KeyUsed(Execute(Initial(start, calls), calls, before).db.events, calls[i].key)
    ensures OnlyReads(Execute(Initial(start, calls), calls, before + rest), calls, i)
    decreases |rest|
  {
    hide Sound, Step, KeyUsed;
    if rest == [] {
      ExecutionIsConsistent(start, calls, before);
      IdleHasNotCommitted(start, calls, Execute(Initial(start, calls), calls, before), i);
      assert before + rest == before;
    } else {
      var n := |rest| - 1;
      LateCallerNeverCommits(start, calls, before, rest[..n], i);
      ExecutionIsConsistent(start, calls, before + rest[..n]);
      StepKeepsReader(start, calls, Execute(Initial(start, calls), calls, before + rest[..n]), rest[n], i);
      assert (before + rest)[..|before + rest| - 1] == before + rest[..n];
    }
  }

  lemma IdleHasNotCommitted(start: Db, calls: seq<Call>, s: System, i: nat)
    requires Consistent(start, calls, s) && i < |calls| && s.phases[i].Idle?
    ensures i !in s.commits
  {
    hide Sound, Run, KeyUsed;
    forall k | 0 <= k < |s.commits|
      ensures s.commits[k] != i
    {
      assert CommitFits(calls, s, s.commits[k]);
    }
  }

  /** How many more steps a caller can take. */
  function StepsLeft(phase: Phase): nat {
    match phase
    case Idle => RETRIES + 3
    case Trying(attempt) => if attempt <= RETRIES then RETRIES - attempt + 2 else 0
    case Rechecking => 1
    case Done(_) => 0
  }

  /** Retrying is bounded: each step of an unfinished caller brings it strictly closer
      to its end, and no other caller can set it back. */
  lemma RetryIsBounded(start: Db, calls: seq<Call>, s: System, turn: Turn, i: nat)
    requires Consistent(start, calls, s) && i < |calls|
    ensures var after := Step(s, calls, turn);
            && (turn.caller != i ==> after.phases[i] == s.phases[i])
            && (turn.caller == i && !s.phases[i].Done? ==> StepsLeft(after.phases[i]) < StepsLeft(s.phases[i]) <= 6)
  {
    PhaseAt(calls, s, i);
    hide Transact, Reconstruct, Sound, Run, FreshReply;
  }

  datatype TxEnding = TxDone(result: Result<Db>) | TxGaveUp

  /** `withSerializableTx` for one caller: `aborts(k)` says that attempt `k` meets a
      serialization failure. It gives up exactly when every allowed attempt aborts,
      and otherwise reports the first attempt that does not. */
  method WithSerializableTx(db: Db, call: Call, aborts: nat -> bool, retries: nat) returns (ending: TxEnding,
                            attempt: nat)
    ensures attempt <= retries
    ensures forall k: nat :: k < attempt ==> aborts(k)
    ensures ending == if aborts(attempt) then TxGaveUp else TxDone(Transact(db, call))
    ensures ending.TxGaveUp? <==> forall k: nat :: k <= retries ==> aborts(k)
  {
    attempt := 0;
    while true
      invariant attempt <= retries
      invariant forall k: nat :: k < attempt ==> aborts(k)
      decreases retries - attempt
    {
      if !aborts(attempt) {
        return TxDone(Transact(db, call)), attempt;
      }
      if attempt < retries {
        attempt := attempt + 1;
        continue;
      }
      return TxGaveUp, attempt;
    }
  }
}
