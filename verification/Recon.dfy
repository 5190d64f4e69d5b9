/** The reconciliation service (src/inventory/inventory.recon.ts) and why its checks
    are worth running: what they say about any forest, and that every state the
    ledger reaches passes them. */
module Recon {
  import opened InventoryTypes
  import opened Mass
  import opened Forest
  import opened Ledger
  import opened LedgerInvariant
  import opened Conservation

  datatype RootRecon = RootRecon(rootQuantity: int, leafSum: int, balanced: bool, gap: int)

  datatype Reason = RootMissing | GenesisMismatch | MassViolated(parents: nat)

  /** `reconcileRoot`: an unknown id reads as 0 on both sides. */
  function ReconcileRoot(receipts: seq<Receipt>, ghost rank: seq<nat>, x: nat): RootRecon
    requires Acyclic(NodesOf(receipts), rank)
  {
    var rootQuantity := if x < |receipts| then receipts[x].quantity else 0;
    var leafSum := Sum(QuantityColumn(receipts), LeavesBelow(NodesOf(receipts), rank, x));
    RootRecon(rootQuantity, leafSum, rootQuantity - leafSum == 0, rootQuantity - leafSum)
  }

  /** The first DEPOSIT event filed under a root. */
  function Genesis(events: seq<Event>, t: nat): (found: Option<nat>)
    ensures found.Some?
           ==> found.value < |events| && events[found.value].kind == Deposited && events[found.value].root == t
    ensures forall e: nat :: e < (if found.Some? then found.value else |events|)
                         ==> !(events[e].kind == Deposited && events[e].root == t)
  {
    if events == [] then None
    else
      var n := |events| - 1;
      var earlier := Genesis(events[..n], t);
      if earlier.Some? then earlier
      else if events[n].kind == Deposited && events[n].root == t then Some(n)
      else None
  }

  /** Flagged parents that have children and do not weigh what those weigh: the inner
      join drops a flagged row without children. */
  function BadParents(receipts: seq<Receipt>, scope: set<nat>): set<nat> {
    var nodes := NodesOf(receipts);
    set p: nat | p < |receipts| && p in scope && receipts[p].isParent && Kids(nodes, p) != {}
                 && receipts[p].quantity != KidSum(nodes, p)
  }

  ghost predicate NoParentIsBad(receipts: seq<Receipt>, scope: set<nat>) {
    forall p: nat | p < |receipts| && p in scope && receipts[p].isParent && Kids(NodesOf(receipts), p) != {} ::
      receipts[p].quantity == KidSum(NodesOf(receipts), p)
  }

  lemma NoBadParents(receipts: seq<Receipt>, scope: set<nat>)
    ensures |BadParents(receipts, scope)| == 0 <==> NoParentIsBad(receipts, scope)
  {
    var bad := BadParents(receipts, scope);
    if NoParentIsBad(receipts, scope) {
      assert bad == {};
    } else {
      var p: nat :| p < |receipts| && p in scope && receipts[p].isParent && Kids(NodesOf(receipts), p) != {}
                    && receipts[p].quantity != KidSum(NodesOf(receipts), p);
      assert p in bad;
    }
  }

  /** `replayVerify`. */
  method ReplayVerify(db: Db, ghost rank: seq<nat>, t: nat) returns (ok: bool, reasons: seq<Reason>)
    requires Acyclic(NodesOf(db.receipts), rank)
    ensures ok <==> reasons == []
    ensures ok <==>
      && t < |db.receipts|
      && (exists e: nat ::
            e < |db.events| && Genesis(db.events, t) == Some(e) && db.events[e].quantity == db.receipts[t].quantity)
      && NoParentIsBad(db.receipts, Subtree(NodesOf(db.receipts), rank, t))
  {
    reasons := [];
    var genesis := Genesis(db.events, t);
    if t >= |db.receipts| {
      return false, [RootMissing];
    }
    if genesis.None? || db.events[genesis.value].quantity != db.receipts[t].quantity {
      reasons := reasons + [GenesisMismatch];
    }
    var bad := BadParents(db.receipts, Subtree(NodesOf(db.receipts), rank, t));
    if |bad| > 0 {
      reasons := reasons + [MassViolated(|bad|)];
    }
    ok := |reasons| == 0;
    NoBadParents(db.receipts, Subtree(NodesOf(db.receipts), rank, t));
  }

  /** The rows a tenant-scoped audit looks at; without a tenant, all of them. */
  function AuditScope(receipts: seq<Receipt>, tenant: Option<string>): set<nat> {
    set i: nat | i < |receipts| && (tenant == None || Some(receipts[i].tenant) == tenant)
  }

  /** `verifyAll`. A row without a root cannot be represented here, as in the schema. */
  method VerifyAll(db: Db, tenant: Option<string>) returns (ok: bool, failures: seq<Reason>)
    ensures ok <==> failures == []
    ensures ok <==> NoParentIsBad(db.receipts, AuditScope(db.receipts, tenant))
  {
    failures := [];
    var bad := BadParents(db.receipts, AuditScope(db.receipts, tenant));
    if |bad| > 0 {
      failures := failures + [MassViolated(|bad|)];
    }
    ok := |failures| == 0;
    NoBadParents(db.receipts, AuditScope(db.receipts, tenant));
  }

  /** Local checks imply the global one: on any finite forest whose `is_parent` flags
      match its edges, if no parent below `x` is bad then `x` reconciles. */
  lemma NoBadParentReconciles(receipts: seq<Receipt>, rank: seq<nat>, x: nat)
    requires Acyclic(NodesOf(receipts), rank) && x < |receipts| && FlagsMatch(NodesOf(receipts))
    requires BadParents(receipts, Subtree(NodesOf(receipts), rank, x)) == {}
    ensures ReconcileRoot(receipts, rank, x).balanced
  {
    var nodes := NodesOf(receipts);
    forall p: nat | p in Subtree(nodes, rank, x) && Kids(nodes, p) != {}
      ensures nodes[p].quantity == KidSum(nodes, p)
    {
      assert nodes[p].isParent;
      assert p !in BadParents(receipts, Subtree(nodes, rank, x));
    }
    LeavesCarryTheWhole(nodes, rank, x);
  }

  /** The flags are needed: a flagged row without children hides its own weight from
      the leaf sum, and no parent check looks at it. */
  lemma StaleFlagEscapesTheParentCheck()
    ensures var r := Receipt("WR-1", SPLIT, APPROVED, "t", "maize", "w", 5, "c", None, 0, true, None, None, None);
            && Acyclic(NodesOf([r]), [0])
            && BadParents([r], {0}) == {}
            && !ReconcileRoot([r], [0], 0).balanced
  {
    var r := Receipt("WR-1", SPLIT, APPROVED, "t", "maize", "w", 5, "c", None, 0, true, None, None, None);
    assert Kids(NodesOf([r]), 0) == {};
    SumEmpty(QuantityColumn([r]), LeavesBelow(NodesOf([r]), [0], 0));
  }

  lemma SoundHasNoBadParent(db: Db, scope: set<nat>)
    requires Sound(db)
    ensures BadParents(db.receipts, scope) == {}
  {
    assert LocallyBalanced(NodesOf(db.receipts));
  }

  lemma SoundHasGenesis(db: Db, t: nat)
    requires Sound(db) && t < |db.receipts| && db.receipts[t].parent.None?
    ensures Genesis(db.events, t).Some?
         && db.events[Genesis(db.events, t).value].quantity == db.receipts[t].quantity
  {
    assert SourcedAt(db, t) && LineageAt(db.receipts, t);
    var source := db.receipts[t].sourceEvent.value;
    assert EventFits(db.receipts, db.events[source]);
    assert db.events[source].kind == Deposited && db.events[source].root == t;
    var e := Genesis(db.events, t).value;
    assert EventFits(db.receipts, db.events[e]);
    assert LineageAt(db.receipts, db.events[e].from);
  }

  /** Every state a run of the ledger reaches passes all three checks: every node
      reconciles with the leaves below it, every root replays, and the audit of any
      tenant is clean. */
  lemma RunPassesEveryCheck(calls: seq<Call>)
    ensures var db := Run(EMPTY_DB, calls);
            var rank := InsertionRank(|db.receipts|);
            && Acyclic(NodesOf(db.receipts), rank)
            && (forall x: nat :: x < |db.receipts| ==> ReconcileRoot(db.receipts, rank, x).balanced)
            && (forall t: nat :: t < |db.receipts| && db.receipts[t].parent.None? ==>
                  && Genesis(db.events, t).Some?
                  && db.events[Genesis(db.events, t).value].quantity == db.receipts[t].quantity)
            && (forall scope :: BadParents(db.receipts, scope) == {})
  {
    var db := Run(EMPTY_DB, calls);
    var rank := InsertionRank(|db.receipts|);
    EmptyIsSound();
    RunIsSound(EMPTY_DB, calls);
    ParentsPrecede(db.receipts);
    hide Lineage, StatusRules, EventsFit, Sourced, SharedBases, BadParents, Run;
    forall scope
      ensures BadParents(db.receipts, scope) == {}
    {
      SoundHasNoBadParent(db, scope);
    }
    forall x: nat | x < |db.receipts|
      ensures ReconcileRoot(db.receipts, rank, x).balanced
    {
      NoBadParentReconciles(db.receipts, rank, x);
    }
    forall t: nat | t < |db.receipts| && db.receipts[t].parent.None?
      ensures Genesis(db.events, t).Some?
           && db.events[Genesis(db.events, t).value].quantity == db.receipts[t].quantity
    {
      SoundHasGenesis(db, t);
    }
  }
}
