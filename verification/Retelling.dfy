/** What a repeated call is told (src/inventory/inventory-ledger.service.ts, lines
    374-388, 594-604, 778-788). A primitive that changes a row in place always answers
    the same. One that splits a row rebuilds its reply from the statuses its children
    have by now, so it answers the same exactly as long as those have not moved on. */
module Retelling {
  import opened InventoryTypes
  import opened Sequences
  import opened Forest
  import opened Ledger
  import opened LedgerInvariant
  import opened Conservation
  import opened Coupling
  import opened CrashRetry

  // ----- Events for good ---------------------------------------------------

  /** Events are only ever appended. */
  lemma CallAppends(db: Db, call: Call)
    requires Sound(db)
    ensures db.events <= Invoke(db, call).db.events
  {
    CallWritesItsPlan(db, call);
    hide Sound, Plan, Lawful, Collides, Invoke;
  }

  lemma {:induction false} RunAppends(db: Db, calls: seq<Call>)
    requires Sound(db)
    ensures db.events <= Run(db, calls).events
  {
    hide Sound, Invoke;
    if calls != [] {
      RunAppends(db, calls[..|calls| - 1]);
      RunIsSound(db, calls[..|calls| - 1]);
      CallAppends(Run(db, calls[..|calls| - 1]), calls[|calls| - 1]);
    }
  }

  /** An event is found under its key for good. */
  lemma FoundForGood(db: Db, e: nat, later: seq<Call>)
    requires Sound(db) && e < |db.events|
    ensures var now := Run(db, later);
            e < |now.events| && now.events[e] == db.events[e] && FindEvent(now.events, db.events[e].key) == Some(e)
  {
    RunAppends(db, later);
    RunIsSound(db, later);
    var now := Run(db, later);
    SoundKeysDistinct(now);
    hide Sound, Run;
    assert now.events[e] == db.events[e];
    var found := FindEvent(now.events, db.events[e].key);
    assert found.Some?;
    assert Keys(now.events)[found.value] == Keys(now.events)[e];
  }

  lemma SoundKeysDistinct(db: Db)
    requires Sound(db)
    ensures Distinct(Keys(db.events))
  {
  }

  lemma EventStays(db: Db, e: nat, later: seq<Call>)
    requires Sound(db) && e < |db.events|
    ensures var now := Run(db, later);
            && e < |now.events| && now.events[e] == db.events[e] && FindEvent(now.events, db.events[e].key) == Some(e)
            && Present(now.receipts, now.events[e].from, now.events[e].tenant)
  {
    hide Sound, Run;
    FoundForGood(db, e, later);
    RunIsSound(db, later);
    SoundEventFits(Run(db, later), e);
  }

  // ----- Rows that change in place -----------------------------------------

  /** A repeated call that changed its receipt in place is told the same for good. */
  lemma InPlaceRepliesTheSame(db: Db, call: Call, later: seq<Call>)
    requires Sound(db) && Plan(db, call).Ok? && Plan(db, call).value.change.Rewrite? && !call.op.Deposit?
    requires !call.op.Seize?
    requires forall key :: Uses(call, key) ==> !KeyUsed(db.events, key)
    ensures var now := Run(Invoke(db, call).db, later);
            Invoke(now, call) == Outcome(now, Invoke(db, call).reply)
  {
    RewritingOp(db, call);
    hide Plan, Sound, KeyUsed, Uses, Run, FindEvent, Transact;
    CommittedEvent(db, call);
    UnusedKeyCommits(db, call);
    var after := Invoke(db, call).db;
    EventStays(after, |db.events|, later);
    KeyOfEvent(after, call.key, |db.events|);
  }

  lemma KeyOfEvent(db: Db, key: Key, e: nat)
    requires FindEvent(db.events, key) == Some(e)
    ensures e < |db.events| && db.events[e].key == key
  {
  }

  lemma RewritingOp(db: Db, call: Call)
    requires Plan(db, call).Ok? && Plan(db, call).value.change.Rewrite?
    ensures !call.op.Hold? && !call.op.ReleasePartial? && (call.op.Seize? ==> call.op.partial.None?)
  {
    hide SplitSuffixes, Partition, Child, KeyUsed;
  }

  // ----- Rows that are split -----------------------------------------------

  /** The table right after a split under event `e`: one or two new rows, the only children
      of the source. */
  ghost predicate JustSplit(after: Db, e: nat, key: Key, x: nat, n: nat, two: bool) {
    && Sound(after) && x < n && |after.receipts| == (if two then n + 2 else n + 1)
    && after.receipts[x].isParent
    && after.receipts[n].sourceEvent == Some(e) && (two ==> after.receipts[n + 1].sourceEvent == Some(e))
    && Kids(NodesOf(after.receipts), x) == (if two then {n, n + 1} else {n})
    && e < |after.events| && after.events[e].kind in {HoldPlaced, HoldReleased, Seized}
    && after.events[e].from == x && after.events[e].key == key
  }

  lemma AfterSplit(db: Db, call: Call)
    requires Sound(db) && Plan(db, call).Ok? && Plan(db, call).value.change.Split? && !call.op.Deposit?
    requires forall key :: Uses(call, key) ==> !KeyUsed(db.events, key)
    ensures var kids, n := Plan(db, call).value.change.kids, |db.receipts|;
            && 1 <= |kids| <= 2
            && JustSplit(Invoke(db, call).db, |db.events|, call.key, call.op.receipt, n, |kids| == 2)
            && Invoke(db, call).db.receipts[n] == kids[0]
            && (|kids| == 2 ==> Invoke(db, call).db.receipts[n + 1] == kids[1])
            && Invoke(db, call).reply == Ok(FreshReply(db, call.op))
  {
    hide Plan, Invoke, Sound, KeyUsed, Uses, FreshReply, Rank, RowRules, SameLineage, LawfulNumbers;
    UnusedKeyCommits(db, call);
    PlanIsLawful(db, call) by { SoundIsFramed(db); }
    PlanNamesItsReceipt(db, call);
    var w := Plan(db, call).value;
    var after, n, x, kids := Invoke(db, call).db, |db.receipts|, w.change.at, w.change.kids;
    assert x == call.op.receipt;
    assert after.receipts == db.receipts[x := Superseded(db.receipts[x])] + kids;
    assert after.receipts[n] == kids[0];
    assert |kids| == 2 ==> after.receipts[n + 1] == kids[1];
    assert after.events[|db.events|] == w.events[0];
    forall i: nat | i < n
      ensures after.receipts[i].parent != Some(x)
    {
      NoKidsYet(db, x, i);
    }
    assert Kids(NodesOf(after.receipts), x) == if |kids| == 2 then {n, n + 1} else {n};
  }

  /** An unsplit receipt has no children. */
  lemma NoKidsYet(db: Db, x: nat, i: nat)
    requires Sound(db) && x < |db.receipts| && i < |db.receipts| && !db.receipts[x].isParent
    ensures db.receipts[i].parent != Some(x)
  {
    assert !NodesOf(db.receipts)[x].isParent;
    assert i !in Kids(NodesOf(db.receipts), x);
  }

  /** The rows minted by an event are children of the row it is about. */
  lemma MintedAreKids(db: Db, e: nat, j: nat)
    requires Sound(db) && e < |db.events| && db.events[e].kind != Deposited && j < |db.receipts|
    requires db.receipts[j].sourceEvent == Some(e)
    ensures j in Kids(NodesOf(db.receipts), db.events[e].from)
  {
    assert SourcedAt(db, j);
  }

  lemma OnlyTheKids(now: Db, e: nat, x: nat, n: nat, two: bool, j: nat)
    requires Sound(now) && j < |now.receipts| && n < |now.receipts| && (two ==> n + 1 < |now.receipts|)
    requires e < |now.events| && now.events[e].kind != Deposited && now.events[e].from == x
    requires Kids(NodesOf(now.receipts), x) == if two then {n, n + 1} else {n}
    requires now.receipts[n].sourceEvent == Some(e) && (two ==> now.receipts[n + 1].sourceEvent == Some(e))
    ensures now.receipts[j].sourceEvent == Some(e) <==> j == n || (two && j == n + 1)
  {
    hide Sound, Kids;
    if now.receipts[j].sourceEvent == Some(e) {
      MintedAreKids(now, e, j);
    }
  }

  lemma AgedSource(before: Receipt, after: Receipt)
    requires Ages(before, after)
    ensures after.sourceEvent == before.sourceEvent
  {
  }

  lemma KidsStay(db: Db, later: seq<Call>, x: nat)
    requires Sound(db) && x < |db.receipts| && db.receipts[x].isParent
    ensures Kids(NodesOf(Run(db, later).receipts), x) == Kids(NodesOf(db.receipts), x)
  {
    RunAges(db, later, x);
  }

  lemma SourceStays(db: Db, later: seq<Call>, i: nat)
    requires Sound(db) && i < |db.receipts|
    ensures i < |Run(db, later).receipts| && Run(db, later).receipts[i].sourceEvent == db.receipts[i].sourceEvent
  {
    hide Sound, Run;
    RunAges(db, later, i);
    AgedSource(db.receipts[i], Run(db, later).receipts[i]);
  }

  /** After any further calls, the children of the split are the same rows. */
  lemma KidsOfTheSplit(after: Db, later: seq<Call>, e: nat, key: Key, x: nat, n: nat, two: bool, j: nat)
    requires JustSplit(after, e, key, x, n, two) && j < |Run(after, later).receipts|
    ensures var now := Run(after, later).receipts;
            && n < |now| && (two ==> n + 1 < |now|)
            && (now[j].sourceEvent == Some(e) <==> j == n || (two && j == n + 1))
  {
    hide Sound, Run, Kids, FindEvent, NodesOf;
    RunIsSound(after, later);
    KidsStay(after, later, x);
    SourceStays(after, later, n);
    if two {
      SourceStays(after, later, n + 1);
    }
    EventStays(after, e, later);
    OnlyTheKids(Run(after, later), e, x, n, two, j);
  }

  /** The child that carries one of some statuses, first found first. */
  lemma {:induction false} FirstOfTwo(receipts: seq<Receipt>, e: nat, n: nat, two: bool, wanted: set<ReceiptStatus>)
    requires n < |receipts| && (two ==> n + 1 < |receipts|)
    requires forall j: nat :: j < |receipts| ==> (receipts[j].sourceEvent == Some(e) <==> j == n || (two && j == n + 1))
    ensures FindKid(receipts, e, wanted)
         == if receipts[n].status in wanted then Some(n)
            else if two && receipts[n + 1].status in wanted then Some(n + 1) else None
  {
    if receipts[n].status in wanted {
      FirstKidIsFound(receipts, n, e, wanted);
    } else if two && receipts[n + 1].status in wanted {
      FirstKidIsFound(receipts, n + 1, e, wanted);
    } else {
      NoKidBefore(receipts, e, wanted);
    }
  }

  function KidOf(receipts: seq<Receipt>, n: nat, two: bool, wanted: set<ReceiptStatus>): Option<nat>
    requires n < |receipts| && (two ==> n + 1 < |receipts|)
  {
    if receipts[n].status in wanted then Some(n)
    else if two && receipts[n + 1].status in wanted then Some(n + 1) else None
  }

  /** After any further calls, the children of a split are found by what they are now. */
  lemma FoundByStatus(after: Db, later: seq<Call>, e: nat, key: Key, x: nat, n: nat, two: bool,
                      wanted: set<ReceiptStatus>)
    requires JustSplit(after, e, key, x, n, two)
    ensures var now := Run(after, later);
            && n < |now.receipts| && (two ==> n + 1 < |now.receipts|)
            && FindKid(now.receipts, e, wanted) == KidOf(now.receipts, n, two, wanted)
            && HasKids(now.receipts, e)
            && FindEvent(now.events, key) == Some(e) && e < |now.events| && now.events[e].from == x
            && Present(now.receipts, x, now.events[e].tenant)
  {
    hide Sound, Run, Kids, FindKid, FindEvent, NodesOf;
    var now := Run(after, later);
    SourceStays(after, later, n);
    EventStays(after, e, later);
    forall j: nat | j < |now.receipts|
      ensures now.receipts[j].sourceEvent == Some(e) <==> j == n || (two && j == n + 1)
    {
      KidsOfTheSplit(after, later, e, key, x, n, two, j);
    }
    if two {
      SourceStays(after, later, n + 1);
    }
    hide JustSplit;
    FirstOfTwo(now.receipts, e, n, two, wanted);
  }

  /** An active row is never held again, and a closed row never changes. */
  lemma StatusLater(db: Db, later: seq<Call>, i: nat)
    requires Sound(db) && i < |db.receipts|
    ensures i < |Run(db, later).receipts|
    ensures db.receipts[i].status == ACTIVE ==> Run(db, later).receipts[i].status !in HELD
    ensures db.receipts[i].status == ReceiptStatus.SEIZED ==> Run(db, later).receipts[i].status == ReceiptStatus.SEIZED
  {
    hide Sound, Run;
    RunAges(db, later, i);
  }

  lemma HoldSplitsRow(db: Db, call: Call)
    requires call.op.Hold? && Plan(db, call).Ok?
    ensures call.op.receipt < |db.receipts| && Plan(db, call).value.change.Split?
    ensures var kids, two := Plan(db, call).value.change.kids, call.op.quantity < db.receipts[call.op.receipt].quantity;
            && |kids| == (if two then 2 else 1) && kids[0].status in HELD && (two ==> kids[1].status == ACTIVE)
            && FreshReply(db, call.op)
               == HoldReply(call.op.receipt, Some(|db.receipts|), if two then Some(|db.receipts| + 1) else None)
  {
    hide SplitSuffixes, KeyUsed;
  }

  /** What a hold is told when its event is on file. */
  lemma RetoldHold(now: Db, e: nat, call: Call)
    requires call.op.Hold? && FindEvent(now.events, call.key) == Some(e) && e < |now.events|
    requires now.events[e].from == call.op.receipt && Present(now.receipts, call.op.receipt, now.events[e].tenant)
    ensures Invoke(now, call)
         == Outcome(now, Ok(HoldReply(call.op.receipt, FindKid(now.receipts, e, HELD),
                                      FindKid(now.receipts, e, {ACTIVE}))))
  {
    hide FindEvent, FindKid, Transact;
  }

  lemma RetoldHoldLater(after: Db, later: seq<Call>, e: nat, call: Call, n: nat, two: bool)
    requires call.op.Hold? && JustSplit(after, e, call.key, call.op.receipt, n, two)
    ensures var now := Run(after, later);
            && n < |now.receipts| && (two ==> n + 1 < |now.receipts|)
            && Invoke(now, call)
               == Outcome(now, Ok(HoldReply(call.op.receipt, KidOf(now.receipts, n, two, HELD),
                                            KidOf(now.receipts, n, two, {ACTIVE}))))
  {
    hide JustSplit, Run, FindKid, FindEvent, Invoke, HasKids, KidOf;
    FoundByStatus(after, later, e, call.key, call.op.receipt, n, two, HELD);
    FoundByStatus(after, later, e, call.key, call.op.receipt, n, two, {ACTIVE});
    RetoldHold(Run(after, later), e, call);
  }

  /** A repeated hold is told what the first was told exactly as long as the held child
      is still held and the remainder, if there was one, is still active. */
  lemma HoldRepliesTheSameIff(db: Db, call: Call, later: seq<Call>)
    requires Sound(db) && call.op.Hold? && Plan(db, call).Ok?
    requires forall key :: Uses(call, key) ==> !KeyUsed(db.events, key)
    ensures call.op.receipt < |db.receipts|
    ensures var now, n := Run(Invoke(db, call).db, later), |db.receipts|;
            var two := call.op.quantity < db.receipts[call.op.receipt].quantity;
            && n < |now.receipts| && (two ==> n + 1 < |now.receipts|)
            && Invoke(now, call).db == now
            && Invoke(now, call).reply
               == Ok(HoldReply(call.op.receipt, KidOf(now.receipts, n, two, HELD),
                               KidOf(now.receipts, n, two, {ACTIVE})))
            && (Invoke(now, call).reply == Invoke(db, call).reply <==>
                  now.receipts[n].status in HELD && (two ==> now.receipts[n + 1].status == ACTIVE))
  {
    hide Plan, Sound, KeyUsed, Uses, Run, Invoke, FreshReply, JustSplit;
    HoldSplitsRow(db, call);
    AfterSplit(db, call);
    var after, n := Invoke(db, call).db, |db.receipts|;
    var two := call.op.quantity < db.receipts[call.op.receipt].quantity;
    JustSplitIsSound(after, |db.events|, call.key, call.op.receipt, n, two);
    RetoldHoldLater(after, later, |db.events|, call, n, two);
    if two {
      StatusLater(after, later, n + 1);
    }
  }

  lemma JustSplitIsSound(after: Db, e: nat, key: Key, x: nat, n: nat, two: bool)
    requires JustSplit(after, e, key, x, n, two)
    ensures Sound(after) && |after.receipts| == (if two then n + 2 else n + 1)
  {
  }

  lemma PartialSplitsRow(db: Db, call: Call)
    requires call.op.ReleasePartial? && Plan(db, call).Ok?
    ensures Plan(db, call).value.change.Split? && |Plan(db, call).value.change.kids| == 2
    ensures Plan(db, call).value.change.kids[0].status == ACTIVE
    ensures Plan(db, call).value.change.kids[1].status == HELD_LIEN
    ensures FreshReply(db, call.op) == PartialReply(Some(|db.receipts|), Some(|db.receipts| + 1))
  {
    hide SplitSuffixes, KeyUsed;
  }

  lemma RetoldPartial(now: Db, e: nat, call: Call)
    requires call.op.ReleasePartial? && FindEvent(now.events, call.key) == Some(e) && e < |now.events|
    ensures Invoke(now, call)
         == Outcome(now, Ok(PartialReply(FindKid(now.receipts, e, {ACTIVE}), FindKid(now.receipts, e, {HELD_LIEN}))))
  {
    hide FindEvent, FindKid, Transact;
  }

  lemma RetoldPartialLater(after: Db, later: seq<Call>, e: nat, call: Call, n: nat)
    requires call.op.ReleasePartial? && JustSplit(after, e, call.key, call.op.receipt, n, true)
    ensures var now := Run(after, later);
            && n + 1 < |now.receipts|
            && Invoke(now, call)
               == Outcome(now, Ok(PartialReply(KidOf(now.receipts, n, true, {ACTIVE}),
                                               KidOf(now.receipts, n, true, {HELD_LIEN}))))
  {
    hide JustSplit, Run, FindKid, FindEvent, Invoke, HasKids, KidOf;
    FoundByStatus(after, later, e, call.key, call.op.receipt, n, true, {ACTIVE});
    FoundByStatus(after, later, e, call.key, call.op.receipt, n, true, {HELD_LIEN});
    RetoldPartial(Run(after, later), e, call);
  }

  /** A repeated partial release is told what the first was told exactly as long as the
      released part is still active and the rest still held for the lien. */
  lemma PartialReleaseRepliesTheSameIff(db: Db, call: Call, later: seq<Call>)
    requires Sound(db) && call.op.ReleasePartial? && Plan(db, call).Ok?
    requires forall key :: Uses(call, key) ==> !KeyUsed(db.events, key)
    ensures var now, n := Run(Invoke(db, call).db, later), |db.receipts|;
            && n + 1 < |now.receipts| && Invoke(now, call).db == now
            && Invoke(now, call).reply
               == Ok(PartialReply(KidOf(now.receipts, n, true, {ACTIVE}), KidOf(now.receipts, n, true, {HELD_LIEN})))
            && (Invoke(now, call).reply == Invoke(db, call).reply <==>
                  now.receipts[n].status == ACTIVE && now.receipts[n + 1].status == HELD_LIEN)
  {
    hide Plan, Sound, KeyUsed, Uses, Run, Invoke, FreshReply, JustSplit;
    PartialSplitsRow(db, call);
    AfterSplit(db, call);
    var after, n := Invoke(db, call).db, |db.receipts|;
    JustSplitIsSound(after, |db.events|, call.key, call.op.receipt, n, true);
    RetoldPartialLater(after, later, |db.events|, call, n);
    StatusLater(after, later, n);
  }

  lemma SeizureSplitsRow(db: Db, call: Call)
    requires call.op.Seize? && call.op.partial.Some? && Plan(db, call).Ok?
    ensures Plan(db, call).value.change.Split? && |Plan(db, call).value.change.kids| == 2
    ensures Plan(db, call).value.change.kids[0].status == ReceiptStatus.SEIZED
    ensures Plan(db, call).value.change.kids[1].status == ACTIVE
    ensures FreshReply(db, call.op) == SeizeReply(Some(|db.receipts|), Some(|db.receipts| + 1))
  {
    hide SplitSuffixes, KeyUsed;
  }

  lemma RetoldSeizure(now: Db, e: nat, call: Call)
    requires call.op.Seize? && FindEvent(now.events, call.key) == Some(e) && e < |now.events|
    requires HasKids(now.receipts, e)
    ensures Invoke(now, call)
         == Outcome(now, Ok(SeizeReply(FindKid(now.receipts, e, {ReceiptStatus.SEIZED}),
                                       FindKid(now.receipts, e, {ACTIVE}))))
  {
    hide FindEvent, FindKid, Transact, HasKids;
  }

  lemma RetoldSeizureLater(after: Db, later: seq<Call>, e: nat, call: Call, n: nat)
    requires call.op.Seize? && JustSplit(after, e, call.key, call.op.receipt, n, true)
    ensures var now := Run(after, later);
            && n + 1 < |now.receipts|
            && Invoke(now, call)
               == Outcome(now, Ok(SeizeReply(KidOf(now.receipts, n, true, {ReceiptStatus.SEIZED}),
                                             KidOf(now.receipts, n, true, {ACTIVE}))))
  {
    hide JustSplit, Run, FindKid, FindEvent, Invoke, HasKids, KidOf;
    FoundByStatus(after, later, e, call.key, call.op.receipt, n, true, {ReceiptStatus.SEIZED});
    FoundByStatus(after, later, e, call.key, call.op.receipt, n, true, {ACTIVE});
    RetoldSeizure(Run(after, later), e, call);
  }

  /** A repeated partial seizure is told what the first was told exactly as long as the
      part it handed back is still active. */
  lemma PartialSeizureRepliesTheSameIff(db: Db, call: Call, later: seq<Call>)
    requires Sound(db) && call.op.Seize? && call.op.partial.Some? && Plan(db, call).Ok?
    requires forall key :: Uses(call, key) ==> !KeyUsed(db.events, key)
    ensures var now, n := Run(Invoke(db, call).db, later), |db.receipts|;
            && n + 1 < |now.receipts| && Invoke(now, call).db == now
            && Invoke(now, call).reply
               == Ok(SeizeReply(Some(n), if now.receipts[n + 1].status == ACTIVE then Some(n + 1) else None))
            && (Invoke(now, call).reply == Invoke(db, call).reply <==> now.receipts[n + 1].status == ACTIVE)
  {
    hide Plan, Sound, KeyUsed, Uses, Run, Invoke, FreshReply, JustSplit;
    SeizureSplitsRow(db, call);
    AfterSplit(db, call);
    var after, n := Invoke(db, call).db, |db.receipts|;
    JustSplitIsSound(after, |db.events|, call.key, call.op.receipt, n, true);
    RetoldSeizureLater(after, later, |db.events|, call, n);
    StatusLater(after, later, n);
  }

  lemma WholeSeizure(db: Db, call: Call)
    requires call.op.Seize? && call.op.partial.None? && Plan(db, call).Ok?
    ensures call.op.receipt < |db.receipts| && Plan(db, call).value.change.Rewrite?
    ensures Plan(db, call).value.change.at == call.op.receipt
    ensures Plan(db, call).value.change.row.status == ReceiptStatus.SEIZED
    ensures |Plan(db, call).value.events| == 1 && Plan(db, call).value.events[0].kind == Seized
    ensures FreshReply(db, call.op) == SeizeReply(Some(call.op.receipt), None)
  {
    hide SplitSuffixes, Partition, Child, KeyUsed;
  }

  /** A seized row has no children, and never will. */
  lemma SeizedHasNoKids(db: Db, e: nat, j: nat)
    requires Sound(db) && e < |db.events| && db.events[e].kind == Seized && j < |db.receipts|
    requires db.events[e].from < |db.receipts| && db.receipts[db.events[e].from].status == ReceiptStatus.SEIZED
    ensures db.receipts[j].sourceEvent != Some(e)
  {
    var x := db.events[e].from;
    assert RowRules(db.receipts[x]);
    NoKidsYet(db, x, j);
    assert SourcedAt(db, j);
  }

  lemma RetoldWholeSeizure(now: Db, e: nat, call: Call)
    requires call.op.Seize? && FindEvent(now.events, call.key) == Some(e) && e < |now.events|
    requires !HasKids(now.receipts, e)
    requires now.events[e].from == call.op.receipt && Present(now.receipts, call.op.receipt, now.events[e].tenant)
    ensures Invoke(now, call) == Outcome(now, Ok(SeizeReply(Some(call.op.receipt), None)))
  {
    hide FindEvent, FindKid, Transact, HasKids;
  }

  lemma NoKidsOfTheSeizure(after: Db, later: seq<Call>, e: nat, x: nat)
    requires Sound(after) && e < |after.events| && after.events[e].kind == Seized && after.events[e].from == x
    requires x < |after.receipts| && after.receipts[x].status == ReceiptStatus.SEIZED
    ensures !HasKids(Run(after, later).receipts, e)
  {
    hide Sound, Run;
    EventStays(after, e, later);
    RunIsSound(after, later);
    StatusLater(after, later, x);
    var now := Run(after, later);
    forall j: nat | j < |now.receipts|
      ensures now.receipts[j].sourceEvent != Some(e)
    {
      SeizedHasNoKids(now, e, j);
    }
  }

  /** A repeated whole seizure is told the same for good. */
  lemma WholeSeizureRepliesTheSame(db: Db, call: Call, later: seq<Call>)
    requires Sound(db) && call.op.Seize? && call.op.partial.None? && Plan(db, call).Ok?
    requires forall key :: Uses(call, key) ==> !KeyUsed(db.events, key)
    ensures var now := Run(Invoke(db, call).db, later);
            Invoke(now, call) == Outcome(now, Invoke(db, call).reply)
  {
    hide Plan, Sound, KeyUsed, Uses, Run, FindEvent, Invoke, HasKids, FreshReply;
    WholeSeizure(db, call);
    CommittedEvent(db, call);
    UnusedKeyCommits(db, call);
    var after, e := Invoke(db, call).db, |db.events|;
    assert after.events[e] == Plan(db, call).value.events[0];
    KeyOfEvent(after, call.key, e);
    EventStays(after, e, later);
    NoKidsOfTheSeizure(after, later, e, call.op.receipt);
    RetoldWholeSeizure(Run(after, later), e, call);
  }
}
