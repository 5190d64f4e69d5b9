/** A pledge, loan or trade whose creation stopped after its hold, created again. The
    repeat draws another identifier, so it asks the ledger for a second hold. */
module StoppedCreates {
  import opened InventoryTypes
  import opened ReceiptNumbers
  import opened Mass
  import opened Forest
  import opened Ledger
  import opened LedgerInvariant
  import opened Conservation
  import opened Tables
  import opened Services
  import opened Coupling
  import opened Opening
  import opened CrashRetry
  import opened Encumbrance

  /** The same create under another identifier. */
  function Again(a: Action, id: nat): Action {
    match a
    case CreatePledge(_, caller, x, financier, quantity, linked, ttl) =>
      CreatePledge(id, caller, x, financier, quantity, linked, ttl)
    case CreateLoan(_, tenant, client, x, authorised) => CreateLoan(id, tenant, client, x, authorised)
    case CreateTrade(_, tenant, client, x, authorised) => CreateTrade(id, tenant, client, x, authorised)
    case _ => a
  }

  lemma AgainAsksTheSame(w: World, a: Action, id: nat)
    requires GateOf(w, a).Proceed? && Opens(a) && !a.ConfirmPayment? && LedgerCall(w, a).Some?
    ensures Opens(Again(a, id)) && GateOf(w, Again(a, id)).Proceed? && LedgerCall(w, Again(a, id)).Some?
    ensures var call, repeat := LedgerCall(w, a).value, LedgerCall(w, Again(a, id)).value;
            && call.op.Hold? && repeat.op.Hold?
            && repeat.op.receipt == call.op.receipt && repeat.tenant == call.tenant
            && (id != OpenedBy(a).id ==> repeat.key != call.key)
  {
    hide TreeMass;
  }

  /** What the gate of the repeat says once the receipt is split: a loan or a trade comes
      as far as the ledger, a pledge only if enough of the receipt's own tree is left. */
  lemma GateOfTheRepeat(w: World, m: World, a: Action, id: nat)
    requires GateOf(w, a).Proceed? && Opens(a) && !a.ConfirmPayment? && LedgerCall(w, a).Some?
    requires var x := LedgerCall(w, a).value.op;
             x.Hold? && x.receipt < |w.db.receipts| <= |m.db.receipts|
             && m.db.receipts[x.receipt] == Superseded(w.db.receipts[x.receipt])
    ensures var x, b := LedgerCall(w, a).value.op.receipt, Again(a, id);
            && (GateOf(m, b).Proceed? <==> !(a.CreatePledge? && a.quantity > TreeMass(m.db.receipts, x, {ACTIVE})))
            && (GateOf(m, b).Proceed? || GateOf(m, b) == Stop(BadRequest))
            && (GateOf(m, b).Proceed? ==>
                  && LedgerCall(m, b).Some? && LedgerCall(m, b).value.op.Hold?
                  && LedgerCall(m, b).value.op.receipt == x
                  && LedgerCall(m, b).value.tenant == LedgerCall(w, a).value.tenant
                  && LedgerCall(m, b).value.key == LedgerCall(w, Again(a, id)).value.key
                  && Present(m.db.receipts, x, LedgerCall(m, b).value.tenant))
  {
    AgainAsksTheSame(w, a, id);
    hide TreeMass;
  }

  /** What is left ACTIVE in the tree of a receipt right after a hold of it: the
      remainder, if the receipt is a root, and nothing if it is not. */
  lemma LeftAfterHold(db: Db, call: Call)
    requires Sound(db) && call.op.Hold? && Plan(db, call).Ok?
    requires forall key :: Uses(call, key) ==> !KeyUsed(db.events, key)
    ensures call.op.receipt < |db.receipts|
    ensures var r := db.receipts[call.op.receipt];
            TreeMass(Invoke(db, call).db.receipts, call.op.receipt, {ACTIVE})
            == if r.parent.None? then r.quantity - call.op.quantity else 0
  {
    hide Plan, Sound, Invoke, KeyUsed, Uses, FreshReply;
    var x, n := call.op.receipt, |db.receipts|;
    UnusedKeyCommits(db, call);
    HoldSplits(db, call);
    HoldWeighs(db, call);
    var after, kids := Invoke(db, call).db.receipts, NewRows(Plan(db, call).value.change);
    assert after == db.receipts[x := Superseded(db.receipts[x])] + kids;
    var rows := TreeRows(after, x, {ACTIVE});
    forall i: nat | i < n
      ensures i !in rows
    {
      if i != x {
        AloneInItsTree(db, x, i);
      }
    }
    assert after[n] == kids[0];
    if |kids| == 2 && db.receipts[x].parent.None? {
      assert after[n + 1] == kids[1];
      assert rows == {n + 1};
      SumSingle(QuantityColumn(after), n + 1);
    } else {
      assert |kids| == 2 ==> after[n + 1] == kids[1];
      assert rows == {};
      SumEmpty(QuantityColumn(after), rows);
    }
  }

  lemma HoldWeighs(db: Db, call: Call)
    requires Sound(db) && call.op.Hold? && Plan(db, call).Ok?
    ensures call.op.receipt < |db.receipts|
    ensures var x, r, kids := call.op.receipt, db.receipts[call.op.receipt], NewRows(Plan(db, call).value.change);
            && 1 <= |kids| <= 2
            && (|kids| == 1 ==> call.op.quantity == r.quantity)
            && (|kids| == 2 ==> kids[1].quantity == r.quantity - call.op.quantity && kids[1].tenant == r.tenant)
            && (forall k :: 0 <= k < |kids| ==> kids[k].root == r.root)
            && (r.parent.None? <==> r.root == x)
            && kids[0].status in HELD && (|kids| == 2 ==> kids[1].status == ACTIVE)
  {
    hide SplitSuffixes, KeyUsed, ChildNumber, BaseReceiptNumber;
    assert LineageAt(db.receipts, call.op.receipt);
  }

  /** No other row is filed under an unsplit receipt. */
  lemma AloneInItsTree(db: Db, x: nat, i: nat)
    requires Sound(db) && x < |db.receipts| && i < |db.receipts| && i != x && db.receipts[x].status == ACTIVE
    ensures db.receipts[i].root != x
  {
    var rank := InsertionRank(|db.receipts|);
    ParentsPrecede(db.receipts);
    RootIsTop(db.receipts, i);
    assert RowRules(db.receipts[x]) && NodesOf(db.receipts)[x].isParent == false;
    NeverTheTop(NodesOf(db.receipts), rank, x, i);
  }

  lemma {:induction false} NeverTheTop(nodes: seq<Forest.Node>, rank: seq<nat>, x: nat, i: nat)
    requires Acyclic(nodes, rank) && x < |nodes| && i < |nodes| && i != x && Kids(nodes, x) == {}
    ensures Top(nodes, rank, i) != x
    decreases rank[i]
  {
    if nodes[i].parent.Some? {
      assert i !in Kids(nodes, x);
      NeverTheTop(nodes, rank, x, nodes[i].parent.value);
    }
  }

  lemma StoppedCreate(w: World, a: Action)
    requires Healthy(w) && GateOf(w, a).Proceed? && Opens(a) && !a.ConfirmPayment? && FreshId(w, a)
    requires LedgerCall(w, a).Some? && Plan(w.db, LedgerCall(w, a).value).Ok?
    ensures var call, m := LedgerCall(w, a).value, Interrupted(w, a);
            && call.op.Hold? && call.op.receipt < |w.db.receipts| <= |m.db.receipts|
            && m == w.(db := Invoke(w.db, call).db)
            && w.db.receipts[call.op.receipt].status == ACTIVE
            && m.db.receipts[call.op.receipt] == Superseded(w.db.receipts[call.op.receipt])
            && (forall key :: KeyUsed(m.db.events, key) <==> KeyUsed(w.db.events, key) || key == call.key)
            && (forall key :: Uses(call, key) ==> !KeyUsed(w.db.events, key))
  {
    hide GateOf, LedgerCall, Plan, Invoke, MayUse, Sound, Coupled, LiensSound, RequestsSound, WindowSound,
         PledgesSound, WithdrawalsSound, FreshReply, KeyUsed, WithRelease;
    HoldCommits(w, a);
    HoldSplits(w.db, LedgerCall(w, a).value);
    HealthyWithdrawalsFit(w);
    AsksForAHold(w, a);
    NotAnApproval(a);
  }

  /** Repeating a stopped create never takes a second hold and changes nothing: it is
      refused by the ledger, or, for a pledge of more than is left in the receipt's own
      tree, already by its own check. The leaf of the first hold stays orphaned. */
  lemma RepeatedCreateIsRefused(w: World, a: Action, id: nat)
    requires Healthy(w) && GateOf(w, a).Proceed? && Opens(a) && !a.ConfirmPayment? && FreshId(w, a)
    requires LedgerCall(w, a).Some? && Plan(w.db, LedgerCall(w, a).value).Ok?
    requires FreshId(w, Again(a, id)) && id != OpenedBy(a).id
    ensures LedgerCall(w, a).value.op.Hold? && LedgerCall(w, a).value.op.receipt < |w.db.receipts|
    ensures var m, r := Interrupted(w, a), w.db.receipts[LedgerCall(w, a).value.op.receipt];
            Perform(m, Again(a, id))
            == Served(m, Refused(if a.CreatePledge? && (r.parent.Some? || r.quantity < 2 * a.quantity) then BadRequest
                                 else LedgerRefused(NotTransactable)))
  {
    var b := Again(a, id);
    hide Plan, Invoke, Perform, GateOf, LedgerCall, Healthy, KeyUsed, TreeMass, MayUse;
    StoppedCreate(w, a);
    var call, m := LedgerCall(w, a).value, Interrupted(w, a);
    AgainAsksTheSame(w, a, id);
    GateOfTheRepeat(w, m, a, id);
    SoundPart(w);
    LeftAfterHold(w.db, call);
    if a.CreatePledge? {
      PledgedQuantity(w, a);
    }
    if GateOf(m, b).Proceed? {
      OpeningKeyIsUnused(w, b);
      OnlyActiveCanBeOpened(m, b);
    } else {
      StopRefuses(m, b);
    }
  }

  lemma SoundPart(w: World)
    requires Healthy(w)
    ensures Sound(w.db)
  {
  }

  lemma PledgedQuantity(w: World, a: Action)
    requires GateOf(w, a).Proceed? && LedgerCall(w, a).Some? && a.CreatePledge?
    ensures LedgerCall(w, a).value.op.Hold? && LedgerCall(w, a).value.op.quantity == a.quantity > 0
  {
    hide TreeMass;
  }

  lemma StopRefuses(w: World, a: Action)
    requires GateOf(w, a).Stop?
    ensures Perform(w, a) == Served(w, Refused(GateOf(w, a).why))
  {
    hide GateOf;
  }
}
