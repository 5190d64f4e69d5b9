/** A run of services, from the empty database, in which the approval of a release request
    stops half way: a receipt of 10.000 with 2.0000 and then 1.0004 of it under lien, and a
    request for 1.0000 of the one and 1.0001 of the other. */
module HalfWay {
  import opened InventoryTypes
  import opened Mass
  import opened Ledger
  import opened LedgerInvariant
  import opened Conservation
  import opened Tables
  import opened Services
  import opened Coupling
  import opened Stability
  import opened Opening
  import opened ApprovalLoop
  import opened Reachable
  import opened Decimals
  import opened DecimalServices
  import opened DecimalCoupling
  import opened DecimalApproval
  import opened DecimalReachable
  import opened LineByLine
  import opened Scenarios

  // ----- The first lien ----------------------------------------------------

  lemma OneMoreStored(run: seq<Action>, a: Action, g: int)
    requires g > 0
    ensures StoredRunActions(EMPTY_WORLD, run + [a], g)
         == StoredPerform(StoredRunActions(EMPTY_WORLD, run, g), a, g).world
    ensures AdmissibleStoredRun(run + [a], g)
       <==> AdmissibleStoredRun(run, g) && Admissible(StoredRunActions(EMPTY_WORLD, run, g), a)
  {
    assert (run + [a])[..|run|] == run;
    hide StoredPerform, Admissible;
  }

  lemma PledgingIsAdmissibleStored(total: int, quantity: int, g: int)
    requires g > 0 && 0 < quantity < total && total % g == 0
    ensures AdmissibleStoredRun(PledgingRun(total, quantity), g)
  {
    hide StoredRunActions, Admissible, StoredPerform;
    var run := PledgingRun(total, quantity);
    PledgingRunLeads(total, quantity, g);
    assert run[..1] == [] + [run[0]] && run[..2] == run[..1] + [run[1]] && run[..3] == run[..2] + [run[2]];
    assert run == run[..3] + [run[3]];
    assert AdmissibleStoredRun([], g);
    OneMoreStored([], run[0], g);
    OneMoreStored(run[..1], run[1], g);
    OneMoreStored(run[..2], run[2], g);
    OneMoreStored(run[..3], run[3], g);
    DeskIsAdmissible(StoredRunActions(EMPTY_WORLD, [], g), run[0]);
    DeskIsAdmissible(StoredRunActions(EMPTY_WORLD, run[..1], g), run[1]);
    ServiceIsAdmissible(StoredRunActions(EMPTY_WORLD, run[..2], g), run[2]);
    ServiceIsAdmissible(StoredRunActions(EMPTY_WORLD, run[..3], g), run[3]);
  }

  /** A lien of 2.0000 on row 1, and 8.000 left on row 2. */
  ghost predicate FirstLien(w: World) {
    && Attached(w) && |w.db.receipts| == 3 && w.now == 0 && w.requests == [] && w.pledges.Keys == {0}
    && w.liens == map[0 := Lien("tenant", 1, FARMER, "financier", 20000, 20000, LienStatus.Active, false)]
    && w.db.receipts[1].quantity == 20000
    && w.db.receipts[2].status == ACTIVE && w.db.receipts[2].quantity == 80000 && w.db.receipts[2].client == "farmer"
    && w.db.receipts[2].tenant == "tenant" && (forall i :: 0 <= i < 3 ==> w.db.receipts[i].root == 0)
  }

  lemma FirstLienIsReached()
    ensures FirstLien(StoredRunActions(EMPTY_WORLD, PledgingRun(100000, 20000), 10))
  {
    hide StoredRunActions, AdmissibleStoredRun, Attached, Rounded, Weighed, LienDrift;
    PledgingRunLeads(100000, 20000, 10);
    PledgingIsAdmissibleStored(100000, 20000, 10);
    ReachableEnds(PledgingRun(100000, 20000), 10, Claim(LienClaim, 0));
  }

  // ----- The second lien ---------------------------------------------------

  const SECOND := CreatePledge(1, FARMER, 2, "financier", 10004, true, 1)

  const SECOND_ACCEPT := AcceptPledge(1, "financier", true)

  function SecondHold(): Call {
    Call("tenant", PledgeKey(CreateWord, 1), Hold(2, 10004, HELD_PLEDGE_PENDING, PLEDGE, Uuid(1)))
  }

  lemma SecondPasses(w: World)
    requires FirstLien(w)
    ensures GateOf(w, SECOND).Proceed? && LedgerCall(w, SECOND) == Some(SecondHold()) && Plan(w.db, SecondHold()).Ok?
    ensures FreshId(w, SECOND)
  {
    hide Lineage, Sourced, Joined, KeysFree, LineEventsFit, LiensFit, RequestsSound, PledgesSound, WithdrawalsFit,
         SplitSuffixes, Child, KeyUsed;
    assert RowRules(w.db.receipts[2]);
    assert TreeRows(w.db.receipts, 2, {ACTIVE}) == {2};
    SumSingle(QuantityColumn(w.db.receipts), 2);
  }

  lemma SecondWrites(w: World)
    requires GateOf(w, SECOND).Proceed? && StoredPerform(w, SECOND, 10).verdict.Done? && 1 !in w.pledges && w.now == 0
    ensures var v := StoredPerform(w, SECOND, 10).world;
            && 1 in v.pledges && v == w.(db := v.db, pledges := w.pledges[1 := v.pledges[1]])
            && v.pledges[1].held.Some?
            && v.pledges[1]
               == Pledge("tenant", 2, v.pledges[1].held, FARMER, "financier", 10004, PledgeStatus.Pending, 1)
  {
    hide StoredInvoke, TreeMass;
  }

  /** The second pledge is open, its leaf of 1.000 on row 3. */
  ghost predicate SecondPledge(v: World) {
    && Attached(v) && |v.db.receipts| > 3 && v.now == 0 && v.requests == [] && v.pledges.Keys == {0, 1}
    && v.liens == map[0 := Lien("tenant", 1, FARMER, "financier", 20000, 20000, LienStatus.Active, false)]
    && v.db.receipts[1].quantity == 20000 && v.db.receipts[3].quantity == 10000
    && v.pledges[1] == Pledge("tenant", 2, Some(3), FARMER, "financier", 10004, PledgeStatus.Pending, 1)
  }

  lemma SecondIsPledged(w: World)
    requires FirstLien(w)
    ensures SecondPledge(StoredPerform(w, SECOND, 10).world)
  {
    hide Attached, StoredPerform, GateOf, LedgerCall, Plan, RowsAged;
    SecondPasses(w);
    StoredOpeningKeepsAttached(w, SECOND, 10);
    SecondWrites(w);
    LeafStaysAsHeavy(w.db, StoredPerform(w, SECOND, 10).world.db, 1);
  }

  lemma AcceptanceWrites(v: World)
    requires SecondPledge(v) && StoredPerform(v, SECOND_ACCEPT, 10).verdict.Done? && GateOf(v, SECOND_ACCEPT).Proceed?
    ensures var u := StoredPerform(v, SECOND_ACCEPT, 10).world;
            && u.requests == [] && u.now == 0
            && u.liens == v.liens[1 := Lien("tenant", 3, FARMER, "financier", 10004, 10004, LienStatus.Active, false)]
  {
    hide StoredInvoke, Attached;
  }

  /** Both liens live on leaves of 2.000 and 1.000. */
  ghost predicate TwoLiens(u: World) {
    && Attached(u) && |u.db.receipts| > 3 && u.requests == [] && u.db.receipts[1].quantity == 20000
    && u.db.receipts[3].quantity == 10000
    && u.liens == map[0 := Lien("tenant", 1, FARMER, "financier", 20000, 20000, LienStatus.Active, false),
                      1 := Lien("tenant", 3, FARMER, "financier", 10004, 10004, LienStatus.Active, false)]
  }

  lemma SecondIsAccepted(v: World)
    requires SecondPledge(v)
    ensures TwoLiens(StoredPerform(v, SECOND_ACCEPT, 10).world)
  {
    hide Attached, StoredPerform, RowsAged, LedgerCall;
    assert GateOf(v, SECOND_ACCEPT).Proceed?;
    hide GateOf;
    StoredAcceptingKeepsAttached(v, SECOND_ACCEPT, 10);
    AcceptanceWrites(v);
    LeafStaysAsHeavy(v.db, StoredPerform(v, SECOND_ACCEPT, 10).world.db, 1);
    LeafStaysAsHeavy(v.db, StoredPerform(v, SECOND_ACCEPT, 10).world.db, 3);
  }

  // ----- The request and its approval --------------------------------------

  const BOTH := CreateReleaseRequest(FARMER, "financier", [LineInput(0, 10000), LineInput(1, 10001)])

  const BOTH_LINES := [Line(0, 1, 10000), Line(1, 3, 10001)]

  function Filed(u: World): World {
    u.(requests := [Request("tenant", FARMER, "financier", BOTH_LINES, RequestStatus.Pending)])
  }

  lemma BothPass(u: World)
    requires TwoLiens(u)
    ensures GateOf(u, BOTH).Proceed? && StoredPerform(u, BOTH, 10).world == Filed(u)
  {
    hide Attached;
    assert CheckLine(u, FARMER, "financier", BOTH.inputs[0]).Proceed?;
    assert CheckLine(u, FARMER, "financier", BOTH.inputs[1]).Proceed?;
    assert LinesOf(u, BOTH.inputs) == BOTH_LINES;
    hide CheckLines;
  }

  lemma LeavesAreHeld(u: World)
    requires TwoLiens(u)
    ensures forall l :: l in {0, 1} ==>
              u.db.receipts[u.liens[l].receipt].status == HELD_LIEN
                && u.db.receipts[u.liens[l].receipt].tenant == "tenant"
    ensures forall kind, k: nat :: !KeyUsed(u.db.events, LineKey(kind, 0, k))
  {
    AttachedLog(u);
    FutureRequestsHaveNoEvents(u, 0);
    hide Attached, Framed, KeysFree, LineEventsFit;
    forall l | l in {0, 1}
      ensures u.db.receipts[u.liens[l].receipt].status == HELD_LIEN
              && u.db.receipts[u.liens[l].receipt].tenant == "tenant"
    {
      LiveHasStake(u, l);
      assert HeldFor(u.db.receipts, Claim(LienClaim, l), StakeOf(u, Claim(LienClaim, l)).value);
    }
  }

  lemma LineOfBoth(u: World, k: nat)
    requires TwoLiens(u) && k < 2
    ensures |Filed(u).requests| == 1 && Filed(u).requests[0].lines == BOTH_LINES
    ensures BOTH_LINES[k].lien in u.liens
    ensures LineReleasable(Filed(u), BOTH_LINES[k]) && LineIsReady(Filed(u), 0, k) && LeafIsHeld(Filed(u), 0, k)
    ensures LienOf(Filed(u), 0, k).receipt == 1 + 2 * k
  {
    LeavesAreHeld(u);
    hide Attached, KeyUsed;
  }

  lemma BothAreReady(u: World)
    requires TwoLiens(u)
    ensures ReadyToApprove(Filed(u), 0) && GateOf(Filed(u), APPROVE).Proceed?
  {
    hide TwoLiens, LineIsReady, LeafIsHeld, LineReleasable, LienOf;
    LineOfBoth(u, 0);
    LineOfBoth(u, 1);
    var w := Filed(u);
    forall k | 0 <= k < |w.requests[0].lines|
      ensures LineReleasable(w, w.requests[0].lines[k])
    {
      LineOfBoth(u, k);
    }
    forall k: nat | k < |w.requests[0].lines|
      ensures w.requests[0].lines[k].lien in w.liens && LineIsReady(w, 0, k) && LeafIsHeld(w, 0, k)
    {
      LineOfBoth(u, k);
    }
  }

  lemma FiledBooksHold(u: World)
    requires TwoLiens(u)
    ensures BooksHold(Filed(u)) && LiensFit(Filed(u).liens)
  {
    hide Attached, LineSum;
    var w := Filed(u);
    assert w.requests[..|w.requests| - 1] == [];
    forall l | l in w.liens
      ensures Booked(w, l) && LienFits(w.liens[l])
    {
      assert AskedOf(w.requests, RequestStatus.Approved, l) == AskedOf([], RequestStatus.Approved, l);
    }
  }

  /** The run. */
  function HalfWayRun(): seq<Action> {
    PledgingRun(100000, 20000) + [SECOND] + [SECOND_ACCEPT] + [BOTH]
  }

  lemma HalfWayLeads()
    ensures exists u :: TwoLiens(u) && StoredRunActions(EMPTY_WORLD, HalfWayRun(), 10) == Filed(u)
    ensures AdmissibleStoredRun(HalfWayRun() + [APPROVE], 10)
  {
    hide StoredRunActions, StoredPerform, Admissible, AdmissibleStoredRun, FirstLien, SecondPledge, TwoLiens;
    var run := PledgingRun(100000, 20000);
    FirstLienIsReached();
    PledgingIsAdmissibleStored(100000, 20000, 10);
    var w := StoredRunActions(EMPTY_WORLD, run, 10);
    OneMoreStored(run, SECOND, 10);
    SecondIsPledged(w);
    var v := StoredRunActions(EMPTY_WORLD, run + [SECOND], 10);
    OneMoreStored(run + [SECOND], SECOND_ACCEPT, 10);
    SecondIsAccepted(v);
    var u := StoredRunActions(EMPTY_WORLD, run + [SECOND] + [SECOND_ACCEPT], 10);
    OneMoreStored(run + [SECOND] + [SECOND_ACCEPT], BOTH, 10);
    BothPass(u);
    OneMoreStored(HalfWayRun(), APPROVE, 10);
    SecondIsAdmissible(w, v, u);
  }

  lemma SecondIsAdmissible(w: World, v: World, u: World)
    requires FirstLien(w)
    ensures Admissible(w, SECOND) && Admissible(v, SECOND_ACCEPT) && Admissible(u, BOTH)
            && Admissible(Filed(u), APPROVE)
  {
    hide Attached;
  }

  /** The approval carries out the first line and is refused at the second: the request stays
      pending, the first lien is down to 1.0000, and its books no longer account for the
      2.0000 it was granted. */
  lemma ApprovalStopsHalfWay()
    ensures var w := StoredRunActions(EMPTY_WORLD, HalfWayRun(), 10);
            && AdmissibleStoredRun(HalfWayRun() + [APPROVE], 10) && GateOf(w, APPROVE).Proceed? && BooksHold(w)
            && var s := StoredPerform(w, APPROVE, 10);
               && s.verdict == Verdict.Refused(LedgerRefused(InsufficientQuantity))
               && s.world.requests == w.requests && |w.requests| == 1 && w.requests[0].status.Pending?
               && 0 in s.world.liens && s.world.liens[0].remaining == 10000 && s.world.liens[0].quantity == 20000
               && !BooksHold(s.world)
  {
    hide StoredRunActions, AdmissibleStoredRun, Attached, ReadyToApprove, StoredPerform, StoredApproveRequest, GateOf,
         StoredReleaseLines;
    HalfWayLeads();
    var u :| TwoLiens(u) && StoredRunActions(EMPTY_WORLD, HalfWayRun(), 10) == Filed(u);
    var w := Filed(u);
    BothAreReady(u);
    FiledBooksHold(u);
    ApprovingIsStored(w, 10);
    var j := ApprovalStopsAtTheFirstUncoveredLine(w, 0, 10);
    assert Covered(w, 0, 0) && !Covered(w, 0, 1);
    assert j == 1;
    HalfApprovalBooks(w, StoredReleaseLines(w, w.liens, 0, 1, 10).world, 0, 1, 10);
  }
}
