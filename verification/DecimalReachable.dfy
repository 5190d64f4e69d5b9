/** What runs of service calls reach over rounding columns, with any quantities: rows and
    held leaves still belong together one to one, and a leaf weighs what its row says, but
    for roundings that can be read off the run. */
module DecimalReachable {
  import opened InventoryTypes
  import opened Ledger
  import opened Conservation
  import opened LedgerInvariant
  import opened Tables
  import opened Services
  import opened Coupling
  import opened Stability
  import opened Guards
  import opened Closing
  import opened Opening
  import opened Aside
  import opened ApprovalLoop
  import opened Reachable
  import opened Decimals
  import opened DecimalServices
  import opened DecimalCoupling
  import opened DecimalApproval

  // ----- What leaves weigh -------------------------------------------------

  /** What an action adds to the difference between the leaf of lien `l` and what its row shows
      as remaining: an acceptance, the rounding of the pledge; an approval, its lines. */
  function StepDrift(w: World, a: Action, g: int, l: nat): int
    requires g > 0
  {
    if !GateOf(w, a).Proceed? then 0
    else if a.AcceptPledge? then if a.id == l then Stored(w.pledges[l].quantity, g) - w.pledges[l].quantity else 0
    else if a.ApproveReleaseRequest? then ApprovalDrift(w, a.id, g, l)
    else 0
  }

  function ApprovalDrift(w: World, id: nat, g: int, l: nat): int
    requires g > 0 && id < |w.requests| && Releasable(w, w.requests[id].lines)
  {
    assert forall k :: 0 <= k < |w.requests[id].lines| ==> LineReleasable(w, w.requests[id].lines[k]);
    LinesDrift(w, id, |w.requests[id].lines|, g, l)
  }

  /** The same of a whole run. */
  function LienDrift(actions: seq<Action>, g: int, l: nat): int
    requires g > 0
  {
    if actions == [] then 0
    else
      var before := actions[..|actions| - 1];
      LienDrift(before, g, l) + StepDrift(StoredRunActions(EMPTY_WORLD, before, g), actions[|actions| - 1], g, l)
  }

  /** What the leaf of an open row weighs: the rounded quantity of the row, or, for a lien, what
      remains of it and `drift`. */
  ghost predicate Weighed(w: World, c: Claim, g: int, drift: int)
    requires g > 0
  {
    && (c.kind.LienClaim? && c.id !in w.liens ==> drift == 0)
    && (StakeOf(w, c).Some? ==>
          var s := StakeOf(w, c).value;
          && s.leaf < |w.db.receipts|
          && w.db.receipts[s.leaf].quantity == if c.kind.LienClaim? then s.quantity + drift else Stored(s.quantity, g))
  }

  lemma WeighedAside(w: World, v: World, c: Claim, g: int, drift: int)
    requires g > 0 && Weighed(w, c, g, drift) && StakeOf(v, c) == StakeOf(w, c)
    requires RowsAged(w.db.receipts, v.db.receipts)
    requires c.kind.LienClaim? && c.id in w.liens ==> c.id in v.liens
    ensures Weighed(v, c, g, drift)
  {
    hide StakeOf, Stored, Rank;
    if StakeOf(w, c).Some? {
      var leaf := StakeOf(w, c).value.leaf;
      assert Ages(w.db.receipts[leaf], v.db.receipts[leaf]);
    }
  }

  // ----- Tables that only grow ---------------------------------------------

  lemma FinishKeepsLiens(w: World, db: Db, a: Action, reply: Reply)
    requires GateOf(w, a).Proceed? && Finish(w, db, a, reply).Some?
    ensures forall l :: l in w.liens ==> l in Finish(w, db, a, reply).value.liens
  {
    hide CheckLines, TreeMass, AvailableForWithdrawal, Releasable;
  }

  /** Every call but an approval: liens stay on file, and the rows stay rounded. */
  lemma PlainStep(w: World, a: Action, g: int)
    requires g > 0 && !a.ApproveReleaseRequest? && Rounded(w.db.receipts, g)
    ensures var v := StoredPerform(w, a, g).world;
            Rounded(v.db.receipts, g) && forall l :: l in w.liens ==> l in v.liens
  {
    hide GateOf, LedgerCall, Finish, StoredInvoke, Rounded;
    if GateOf(w, a).Proceed? {
      var call := LedgerCall(w, a);
      if call.None? {
        if Finish(w, w.db, a, Node(0)).Some? {
          FinishKeepsLiens(w, w.db, a, Node(0));
          FinishKeepsRows(w, w.db, a, Node(0));
        }
      } else {
        CallStaysRounded(w.db, call.value, g);
        var o := StoredInvoke(w.db, call.value, g);
        if o.reply.Ok? && Finish(w, o.db, a, o.reply.value).Some? {
          FinishKeepsLiens(w, o.db, a, o.reply.value);
          FinishKeepsRows(w, o.db, a, o.reply.value);
        }
      }
    }
  }

  // ----- Every action ------------------------------------------------------

  /** The state before a call, as far as claim `c` goes. */
  ghost predicate Starts(w: World, c: Claim, g: int, drift: int)
    requires g > 0
  {
    && Attached(w) && Rounded(w.db.receipts, g) && Weighed(w, c, g, drift)
    && (c.kind.LienClaim? ==> Weighed(w, Claim(PledgeClaim, c.id), g, drift))
  }

  ghost predicate Ends(v: World, c: Claim, g: int, drift: int)
    requires g > 0
  {
    Attached(v) && Rounded(v.db.receipts, g) && Weighed(v, c, g, drift)
  }

  lemma DriftIsForLiens(w: World, c: Claim, g: int, drift: int, other: int)
    requires g > 0 && !c.kind.LienClaim? && Weighed(w, c, g, drift)
    ensures Weighed(w, c, g, other)
  {
    hide StakeOf, Stored;
  }

  lemma NoStepDrift(w: World, a: Action, g: int, l: nat)
    requires g > 0 && !a.ApproveReleaseRequest? && (a.AcceptPledge? ==> a.id != l)
    ensures StepDrift(w, a, g, l) == 0
  {
    hide GateOf, Stored;
  }

  lemma ClosingEnds(w: World, a: Action, g: int, c: Claim, drift: int)
    requires g > 0 && Starts(w, c, g, drift) && GateOf(w, a).Proceed? && ClaimOf(a).Some? && LedgerCall(w, a).Some?
    requires !KeepsLeaf(a) && Priced(a)
    ensures Ends(StoredPerform(w, a, g).world, c, g, drift)
  {
    hide GateOf, LedgerCall, StoredPerform, Attached, Rounded, RowsAged, StakeOf, Priced;
    var v := StoredPerform(w, a, g).world;
    StoredClosingKeepsAttached(w, a, g);
    NotAnApproval(a);
    PlainStep(w, a, g);
    if c != ClaimOf(a).value {
      WeighedAside(w, v, c, g, drift);
    }
  }

  lemma ApprovingEnds(w: World, a: Action, g: int, c: Claim, drift: int)
    requires g > 0 && Starts(w, c, g, drift) && GateOf(w, a).Proceed? && (a.ApproveWithdrawal? || a.ApproveLoan?)
    ensures Ends(StoredPerform(w, a, g).world, c, g, drift)
  {
    hide GateOf, LedgerCall, StoredPerform, Attached, Rounded, StakeOf, Stored;
    var v := StoredPerform(w, a, g).world;
    StoredApprovingKeepsAttached(w, a, g);
    PlainStep(w, a, g);
    if c == ClaimOf(a).value {
      LeafStaysAsHeavy(w.db, v.db, StakeOf(w, c).value.leaf);
    } else {
      hide RowsAged;
      WeighedAside(w, v, c, g, drift);
    }
  }

  lemma LeafStaysAsHeavy(before: Db, after: Db, leaf: nat)
    requires RowsAged(before.receipts, after.receipts) && leaf < |before.receipts|
    ensures leaf < |after.receipts| && after.receipts[leaf].quantity == before.receipts[leaf].quantity
  {
    hide Rank;
    assert Ages(before.receipts[leaf], after.receipts[leaf]);
  }

  /** The lien starts with the leaf its pledge had, and with what the caller pledged. */
  lemma AcceptingEnds(w: World, a: Action, g: int, c: Claim, drift: int)
    requires g > 0 && Starts(w, c, g, drift) && GateOf(w, a).Proceed? && a.AcceptPledge?
    ensures Ends(StoredPerform(w, a, g).world, c, g, drift + StepDrift(w, a, g, c.id))
  {
    hide GateOf, LedgerCall, StoredPerform, Rounded, StakeOf, Stored, RowsAged, Framed, Joined, KeysFree,
         LineEventsFit, LiensFit, RequestsSound, WithdrawalsFit, PledgesSound, StepDrift;
    var v, d := StoredPerform(w, a, g).world, Claim(LienClaim, a.id);
    StoredAcceptingKeepsAttached(w, a, g);
    PlainStep(w, a, g);
    if c == d {
      ApprovalHasACall(w, a);
      PendingHasNoLien(w, a.id);
      PledgeStake(w, a, g);
      LienOnFile(v, a.id);
      LeafStaysAsHeavy(w.db, v.db, StakeOf(w, ClaimOf(a).value).value.leaf);
    } else if c.kind.LienClaim? {
      NoStepDrift(w, a, g, c.id);
      WeighedAside(w, v, c, g, drift);
    } else {
      if c != ClaimOf(a).value {
        WeighedAside(w, v, c, g, drift);
      }
      DriftIsForLiens(v, c, g, drift, drift + StepDrift(w, a, g, c.id));
    }
  }

  lemma PledgeStake(w: World, a: Action, g: int)
    requires g > 0 && GateOf(w, a).Proceed? && a.AcceptPledge? && StakeOf(w, Claim(PledgeClaim, a.id)).Some?
    ensures a.id in w.pledges
    ensures var q := StakeOf(w, Claim(PledgeClaim, a.id)).value.quantity; StepDrift(w, a, g, a.id) == Stored(q, g) - q
  {
    hide Stored;
  }

  lemma LienOnFile(w: World, l: nat)
    requires StakeOf(w, Claim(LienClaim, l)).Some?
    ensures l in w.liens
  {
  }

  lemma RejectingUnheldEnds(w: World, a: Action, g: int, c: Claim, drift: int)
    requires g > 0 && Starts(w, c, g, drift) && GateOf(w, a).Proceed? && ClaimOf(a).Some? && LedgerCall(w, a).None?
    ensures Ends(StoredPerform(w, a, g).world, c, g, drift)
  {
    hide GateOf, LedgerCall, StoredPerform, Attached, Rounded, StakeOf, RowsAged;
    var v := StoredPerform(w, a, g).world;
    StoredRejectingUnheldKeepsAttached(w, a, g);
    NotAnApproval(a);
    PlainStep(w, a, g);
    RowsStay(w.db.receipts);
    WeighedAside(w, v, c, g, drift);
  }

  lemma OpeningEnds(w: World, a: Action, g: int, c: Claim, drift: int)
    requires g > 0 && Starts(w, c, g, drift) && GateOf(w, a).Proceed? && Opens(a) && FreshId(w, a)
    ensures Ends(StoredPerform(w, a, g).world, c, g, drift)
  {
    hide GateOf, LedgerCall, StoredPerform, Attached, Rounded, StakeOf, Stored, RowsAged, FreshId, Plan;
    var v := StoredPerform(w, a, g).world;
    StoredOpensOrChangesNothing(w, a, g);
    if StoredPerform(w, a, g).verdict.Done? {
      StoredOpeningKeepsAttached(w, a, g);
      NotAnApproval(a);
      PlainStep(w, a, g);
      if c != OpenedBy(a) {
        WeighedAside(w, v, c, g, drift);
      }
    }
  }

  lemma LienWeighs(w: World, l: nat, g: int, drift: int)
    requires g > 0
    ensures Weighed(w, Claim(LienClaim, l), g, drift) <==> Weighs(w, l, drift)
  {
    hide Stored;
  }

  function LeafOverRow(w: World, l: nat): (drift: int)
    requires Attached(w)
    ensures Weighs(w, l, drift)
  {
    AttachedLog(w);
    hide Attached;
    if l in w.liens && Live(w.liens[l]) then
      LiveHasStake(w, l);
      assert HeldFor(w.db.receipts, Claim(LienClaim, l), StakeOf(w, Claim(LienClaim, l)).value);
      w.db.receipts[w.liens[l].receipt].quantity - w.liens[l].remaining
    else 0
  }

  lemma OtherClaimsStay(w: World, v: World, c: Claim)
    requires !c.kind.LienClaim? && v == w.(db := v.db, liens := v.liens, requests := v.requests)
    ensures StakeOf(v, c) == StakeOf(w, c)
  {
  }

  lemma ApprovalUnfolds(w: World, a: Action, g: int)
    requires g > 0 && GateOf(w, a).Proceed? && a.ApproveReleaseRequest?
    ensures a.id < |w.requests| && w.requests[a.id].status.Pending? && Releasable(w, w.requests[a.id].lines)
    ensures StoredPerform(w, a, g) == StoredApproveRequest(w, a.id, g)
    ensures forall l :: StepDrift(w, a, g, l) == ApprovalDrift(w, a.id, g, l)
  {
    hide StoredApproveRequest, ApprovalDrift, Releasable;
  }

  lemma LienAfterApproval(w: World, id: nat, g: int, l: nat, drift: int)
    requires g > 0 && Starts(w, Claim(LienClaim, l), g, drift)
    requires id < |w.requests| && w.requests[id].status.Pending? && Releasable(w, w.requests[id].lines)
    ensures Ends(StoredApproveRequest(w, id, g).world, Claim(LienClaim, l), g, drift + ApprovalDrift(w, id, g, l))
  {
    hide Attached, Rounded, StoredApproveRequest, RowsAged, Releasable, Weighed, Weighs, LinesDrift;
    ReleasableLiens(w, w.requests[id].lines);
    LienWeighs(w, l, g, drift);
    StoredApprovalKeepsAttached(w, id, g, l, drift);
    LienWeighs(StoredApproveRequest(w, id, g).world, l, g, drift + ApprovalDrift(w, id, g, l));
  }

  lemma OthersAfterApproval(w: World, id: nat, g: int, c: Claim, drift: int, later: int)
    requires g > 0 && Starts(w, c, g, drift) && !c.kind.LienClaim?
    requires id < |w.requests| && w.requests[id].status.Pending? && Releasable(w, w.requests[id].lines)
    ensures Ends(StoredApproveRequest(w, id, g).world, c, g, later)
  {
    hide Attached, Rounded, StoredApproveRequest, RowsAged, Releasable, Weighed, Weighs, LinesDrift, StakeOf;
    ReleasableLiens(w, w.requests[id].lines);
    var v := StoredApproveRequest(w, id, g).world;
    StoredApprovalKeepsAttached(w, id, g, c.id, LeafOverRow(w, c.id));
    OtherClaimsStay(w, v, c);
    DriftIsForLiens(w, c, g, drift, later);
    WeighedAside(w, v, c, g, later);
  }

  lemma ApprovalEnds(w: World, a: Action, g: int, c: Claim, drift: int)
    requires g > 0 && Starts(w, c, g, drift) && GateOf(w, a).Proceed? && a.ApproveReleaseRequest?
    ensures Ends(StoredPerform(w, a, g).world, c, g, drift + StepDrift(w, a, g, c.id))
  {
    hide GateOf, StoredPerform, Starts, Ends, StoredApproveRequest, Releasable, StepDrift, ApprovalDrift;
    ApprovalUnfolds(w, a, g);
    if c.kind.LienClaim? {
      LienAfterApproval(w, a.id, g, c.id, drift);
    } else {
      OthersAfterApproval(w, a.id, g, c, drift, drift + StepDrift(w, a, g, c.id));
    }
  }

  // ----- Actions that hold nothing and let nothing go ----------------------

  predicate Holds(a: Action) {
    ClaimOf(a).Some? || Opens(a) || a.ApproveReleaseRequest? || a.LedgerDesk?
  }

  lemma NoCallIsExact(w: World, a: Action, g: int)
    requires g > 0 && !Holds(a)
    ensures StoredPerform(w, a, g) == Perform(w, a)
  {
    hide GateOf, Finish;
  }

  lemma DropUnfolds(w: World, a: Action, g: int)
    requires g > 0 && GateOf(w, a).Proceed? && (a.CancelReleaseRequest? || a.RejectReleaseRequest?)
    ensures a.id < |w.requests| && w.requests[a.id].status.Pending?
    ensures StoredPerform(w, a, g).world
         == SetRequest(w, a.id, if a.CancelReleaseRequest? then RequestStatus.Cancelled else RequestStatus.Rejected)
  {
    hide CheckLines, TreeMass, AvailableForWithdrawal, Releasable;
  }

  lemma HouseworkUnfolds(w: World, a: Action, g: int)
    requires g > 0 && (a.ExpirePendingPayments? || a.Tick?)
    ensures StoredPerform(w, a, g).world
         == if a.Tick? then w.(now := w.now + a.ms) else w.(withdrawals := CleanUp(w.withdrawals, w.now))
  {
  }

  lemma AsideKeepsAttached(w: World, a: Action, g: int)
    requires g > 0 && Attached(w) && GateOf(w, a).Proceed? && !Holds(a)
    requires a.CreateReleaseRequest? ==> DistinctInputs(a.inputs)
    ensures var v := StoredPerform(w, a, g).world;
            Attached(v) && OnlyChanged(w, v, {}) && v.db == w.db
  {
    hide GateOf, StoredPerform, Attached, StakeOf, Perform;
    if a.CreateReleaseRequest? {
      StoredRequestingKeepsAttached(w, a, g);
    } else if a.CreateWithdrawal? {
      NoCallIsExact(w, a, g);
      BookingIsOneRow(w, a);
      BookingKeepsAttached(w, Withdrawal(a.tenant, a.client, a.receipt, a.quantity, PendingPayment, w.now));
    } else if a.CancelReleaseRequest? || a.RejectReleaseRequest? {
      DropUnfolds(w, a, g);
      DroppingKeepsAttached(w, a.id,
                            if a.CancelReleaseRequest? then RequestStatus.Cancelled else RequestStatus.Rejected);
    } else {
      HouseworkUnfolds(w, a, g);
      if a.Tick? {
        TimeKeepsAttached(w, a.ms);
      } else {
        CleanupKeepsAttached(w);
      }
    }
  }

  lemma AsideEnds(w: World, a: Action, g: int, c: Claim, drift: int)
    requires g > 0 && Starts(w, c, g, drift) && GateOf(w, a).Proceed? && !Holds(a)
    requires a.CreateReleaseRequest? ==> DistinctInputs(a.inputs)
    ensures Ends(StoredPerform(w, a, g).world, c, g, drift)
  {
    hide GateOf, StoredPerform, Attached, Rounded, StakeOf, RowsAged;
    AsideKeepsAttached(w, a, g);
    PlainStep(w, a, g);
    RowsStay(w.db.receipts);
    WeighedAside(w, StoredPerform(w, a, g).world, c, g, drift);
  }

  lemma DeskUnfolds(w: World, a: Action, g: int)
    requires g > 0 && a.LedgerDesk?
    ensures StoredPerform(w, a, g).world == w.(db := StoredInvoke(w.db, a.call, g).db)
  {
    hide StoredInvoke;
  }

  lemma DeskEnds(w: World, a: Action, g: int, c: Claim, drift: int)
    requires g > 0 && Starts(w, c, g, drift) && a.LedgerDesk? && DeskCall(w, a.call)
    ensures Ends(StoredPerform(w, a, g).world, c, g, drift)
  {
    hide GateOf, StoredPerform, Attached, Rounded, StakeOf, RowsAged, DeskCall, StoredInvoke;
    DeskUnfolds(w, a, g);
    StoredDeskKeepsAttached(w, a.call, g);
    PlainStep(w, a, g);
    WeighedAside(w, StoredPerform(w, a, g).world, c, g, drift);
  }

  // ----- Every step, every run ---------------------------------------------

  lemma RowActionEnds(w: World, a: Action, g: int, c: Claim, drift: int)
    requires g > 0 && Starts(w, c, g, drift) && GateOf(w, a).Proceed? && ClaimOf(a).Some? && Priced(a)
    ensures Ends(StoredPerform(w, a, g).world, c, g, drift + StepDrift(w, a, g, c.id))
  {
    hide GateOf, StoredPerform, LedgerCall, Starts, Ends, StepDrift;
    if a.AcceptPledge? {
      AcceptingEnds(w, a, g, c, drift);
    } else {
      NotAnApproval(a);
      NoStepDrift(w, a, g, c.id);
      if a.ApproveWithdrawal? || a.ApproveLoan? {
        ApprovingEnds(w, a, g, c, drift);
      } else if LedgerCall(w, a).None? {
        RejectingUnheldEnds(w, a, g, c, drift);
      } else {
        ClosingEnds(w, a, g, c, drift);
      }
    }
  }

  lemma StartEnds(w: World, c: Claim, g: int, drift: int)
    requires g > 0 && Starts(w, c, g, drift)
    ensures Ends(w, c, g, drift)
  {
    hide Attached, Rounded, Weighed;
  }

  /** Every action, whatever the quantities: rows and leaves stay together, and each leaf weighs
      what its row says but for the roundings. */
  lemma ActionEnds(w: World, a: Action, g: int, c: Claim, drift: int)
    requires g > 0 && Starts(w, c, g, drift) && Admissible(w, a)
    ensures Ends(StoredPerform(w, a, g).world, c, g, drift + StepDrift(w, a, g, c.id))
  {
    hide GateOf, Starts, Ends, DeskCall, FreshId, Priced;
    if !GateOf(w, a).Proceed? {
      StartEnds(w, c, g, drift);
    } else {
      hide StoredPerform, StepDrift;
      if a.ApproveReleaseRequest? {
        ApprovalEnds(w, a, g, c, drift);
      } else if ClaimOf(a).Some? {
        RowActionEnds(w, a, g, c, drift);
      } else {
        NoStepDrift(w, a, g, c.id);
        if Opens(a) {
          OpeningEnds(w, a, g, c, drift);
        } else if a.LedgerDesk? {
          DeskEnds(w, a, g, c, drift);
        } else {
          AsideEnds(w, a, g, c, drift);
        }
      }
    }
  }

  ghost predicate AdmissibleStoredRun(actions: seq<Action>, g: int)
    requires g > 0
  {
    actions == []
    || (AdmissibleStoredRun(actions[..|actions| - 1], g)
        && Admissible(StoredRunActions(EMPTY_WORLD, actions[..|actions| - 1], g), actions[|actions| - 1]))
  }

  lemma NothingStarts(c: Claim, g: int)
    requires g > 0
    ensures Ends(EMPTY_WORLD, c, g, 0)
  {
  }

  lemma EndsStart(w: World, c: Claim, g: int, drift: int)
    requires g > 0 && Ends(w, c, g, drift)
    requires c.kind.LienClaim? ==> Ends(w, Claim(PledgeClaim, c.id), g, drift)
    ensures Starts(w, c, g, drift)
  {
    hide Attached, Rounded, Weighed;
  }

  /** After any admissible run of service calls over rounding columns. */
  lemma {:induction false} ReachableEnds(actions: seq<Action>, g: int, c: Claim)
    requires g > 0 && AdmissibleStoredRun(actions, g)
    ensures Ends(StoredRunActions(EMPTY_WORLD, actions, g), c, g, LienDrift(actions, g, c.id))
    decreases |actions|, c.kind.LienClaim?
  {
    hide Starts, Ends, Admissible, StoredPerform, StepDrift;
    if actions == [] {
      NothingStarts(c, g);
    } else {
      var before := actions[..|actions| - 1];
      var w, drift := StoredRunActions(EMPTY_WORLD, before, g), LienDrift(before, g, c.id);
      ReachableEnds(before, g, c);
      ReachableEnds(before, g, Claim(PledgeClaim, c.id));
      EndsStart(w, c, g, drift);
      ActionEnds(w, actions[|actions| - 1], g, c, drift);
    }
  }

  /** Coupling with any quantities: a leaf is held exactly when some open row claims it, no two
      open rows claim one leaf, and the leaf has the kind and the tenant of its row. It weighs
      the rounded quantity of the row, or, for a lien, what remains of it and the roundings of
      what was pledged and released; so it agrees with its row exactly if that quantity is
      stored exactly, or those roundings add up to nothing. */
  lemma ReachableLeavesWeigh(actions: seq<Action>, g: int, i: nat, c: Claim, d: Claim)
    requires g > 0 && AdmissibleStoredRun(actions, g)
    ensures var w := StoredRunActions(EMPTY_WORLD, actions, g);
            && (i < |w.db.receipts| ==>
                  (w.db.receipts[i].status in HELD
                   <==> exists e :: StakeOf(w, e).Some? && StakeOf(w, e).value.leaf == i))
            && (StakeOf(w, c).Some? ==>
                  var s := StakeOf(w, c).value;
                  && s.leaf < |w.db.receipts|
                  && var r := w.db.receipts[s.leaf];
                     && r.status == StatusFor(c.kind) && r.tenant == s.tenant
                     && r.quantity == (if c.kind.LienClaim? then s.quantity + LienDrift(actions, g, c.id)
                                       else Stored(s.quantity, g))
                     && (r.quantity == s.quantity
                         <==> if c.kind.LienClaim? then LienDrift(actions, g, c.id) == 0 else s.quantity % g == 0))
            && (StakeOf(w, c).Some? && StakeOf(w, d).Some? && StakeOf(w, c).value.leaf == StakeOf(w, d).value.leaf
                ==> c == d)
  {
    hide StoredRunActions, AdmissibleStoredRun, StakeOf, Attached, Rounded, LienDrift, Claimed, Stored;
    ReachableEnds(actions, g, c);
    var w := StoredRunActions(EMPTY_WORLD, actions, g);
    AttachedLog(w);
    if i < |w.db.receipts| {
      CouplingIsOneToOne(w, i, c, d);
    } else if StakeOf(w, c).Some? {
      CouplingIsOneToOne(w, StakeOf(w, c).value.leaf, c, d);
    }
    assert StakeOf(w, c).Some? ==> HeldFor(w.db.receipts, c, StakeOf(w, c).value);
    if StakeOf(w, c).Some? {
      StoredIsNearest(StakeOf(w, c).value.quantity, g);
    }
  }
}
