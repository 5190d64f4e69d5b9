/** How the parts of the coupling invariant survive one ledger change and one row
    write, stated once for each kind of ledger change. */
module Stability {
  import opened InventoryTypes
  import opened Mass
  import opened Forest
  import opened Ledger
  import opened LedgerInvariant
  import opened Conservation
  import opened Tables
  import opened Services
  import opened Coupling

  // ----- Coupling ----------------------------------------------------------

  /** Only the named claims changed. */
  ghost predicate OnlyChanged(w: World, v: World, claims: set<Claim>) {
    forall c :: c !in claims ==> StakeOf(v, c) == StakeOf(w, c)
  }

  /** An open row lets go of its leaf, and the leaf stops being held. */
  lemma JoinedAfterLettingGo(w: World, v: World, c: Claim, row: Receipt)
    requires Joined(w) && StakeOf(w, c).Some? && StakeOf(v, c).None? && OnlyChanged(w, v, {c})
    requires var at := StakeOf(w, c).value.leaf;
             && at < |w.db.receipts| && v.db.receipts == w.db.receipts[at := row] && row.status !in HELD
    ensures Joined(v)
  {
    hide StakeOf;
    var at := StakeOf(w, c).value.leaf;
    assert HeldFor(w.db.receipts, c, StakeOf(w, c).value);
    forall d | StakeOf(v, d).Some?
      ensures HeldFor(v.db.receipts, d, StakeOf(v, d).value)
    {
      assert d != c;
      assert HeldFor(w.db.receipts, d, StakeOf(w, d).value);
      if StakeOf(w, d).value.leaf == at {
        SameLeafSameClaim(w, c, d);
      }
    }
    forall i: nat | i < |v.db.receipts| && v.db.receipts[i].status in HELD
      ensures Claimed(v, i)
    {
      assert i != at && Claimed(w, i);
    }
  }

  lemma SameLeafSameClaim(w: World, c: Claim, d: Claim)
    requires Joined(w) && StakeOf(w, c).Some? && StakeOf(w, d).Some?
    requires StakeOf(w, c).value.leaf == StakeOf(w, d).value.leaf
    ensures c == d
  {
    hide StakeOf;
    assert HeldFor(w.db.receipts, c, StakeOf(w, c).value) && HeldFor(w.db.receipts, d, StakeOf(w, d).value);
  }

  /** A leaf keeps being held, but is rewritten for the same or another row. */
  lemma JoinedAfterRewriting(w: World, v: World, c: Claim, d: Claim, row: Receipt)
    requires Joined(w) && StakeOf(w, c).Some? && StakeOf(v, d).Some? && OnlyChanged(w, v, {c, d})
    requires c != d ==> StakeOf(v, c).None?
    requires var at := StakeOf(w, c).value.leaf;
             && at < |w.db.receipts| && v.db.receipts == w.db.receipts[at := row]
             && StakeOf(v, d).value.leaf == at && HeldFor(v.db.receipts, d, StakeOf(v, d).value)
    requires c != d ==> StakeOf(w, d).None?
    ensures Joined(v)
  {
    hide StakeOf;
    var at := StakeOf(w, c).value.leaf;
    forall e | StakeOf(v, e).Some?
      ensures HeldFor(v.db.receipts, e, StakeOf(v, e).value)
    {
      if e != d {
        assert e != c;
        assert HeldFor(w.db.receipts, e, StakeOf(w, e).value);
        if StakeOf(w, e).value.leaf == at {
          SameLeafSameClaim(w, c, e);
        }
      }
    }
    forall i: nat | i < |v.db.receipts| && v.db.receipts[i].status in HELD
      ensures Claimed(v, i)
    {
      if i != at {
        assert Claimed(w, i);
        assert Claim(KindFor(w.db.receipts[i].status), w.db.receipts[i].txnId.value.id) != c;
      }
    }
  }

  /** An unheld row is split and one new leaf is held for a new open row. */
  lemma JoinedAfterHolding(w: World, v: World, c: Claim, at: nat, kids: seq<Receipt>)
    requires Joined(w) && StakeOf(w, c).None? && StakeOf(v, c).Some? && OnlyChanged(w, v, {c})
    requires at < |w.db.receipts| && w.db.receipts[at].status !in HELD && 1 <= |kids| <= 2
    requires v.db.receipts == w.db.receipts[at := Superseded(w.db.receipts[at])] + kids
    requires StakeOf(v, c).value.leaf == |w.db.receipts| && HeldFor(v.db.receipts, c, StakeOf(v, c).value)
    requires |kids| == 2 ==> kids[1].status !in HELD
    ensures Joined(v)
  {
    hide StakeOf;
    var n := |w.db.receipts|;
    forall d | StakeOf(v, d).Some?
      ensures HeldFor(v.db.receipts, d, StakeOf(v, d).value)
    {
      if d != c {
        assert HeldFor(w.db.receipts, d, StakeOf(w, d).value);
      }
    }
    forall i: nat | i < |v.db.receipts| && v.db.receipts[i].status in HELD
      ensures Claimed(v, i)
    {
      if i < n {
        assert i != at && v.db.receipts[i] == w.db.receipts[i];
        assert Claimed(w, i);
        assert Claim(KindFor(w.db.receipts[i].status), w.db.receipts[i].txnId.value.id) != c;
      } else {
        assert v.db.receipts[i] == kids[i - n];
      }
    }
  }

  /** A held leaf is split and its row moves on to the second child. */
  lemma JoinedAfterPartial(w: World, v: World, c: Claim, kids: seq<Receipt>)
    requires Joined(w) && StakeOf(w, c).Some? && StakeOf(v, c).Some? && OnlyChanged(w, v, {c})
    requires |kids| == 2 && kids[0].status !in HELD
    requires var at, n := StakeOf(w, c).value.leaf, |w.db.receipts|;
             && at < n && v.db.receipts == w.db.receipts[at := Superseded(w.db.receipts[at])] + kids
             && StakeOf(v, c).value.leaf == n + 1 && HeldFor(v.db.receipts, c, StakeOf(v, c).value)
    ensures Joined(v)
  {
    hide StakeOf;
    var at, n := StakeOf(w, c).value.leaf, |w.db.receipts|;
    forall d | StakeOf(v, d).Some?
      ensures HeldFor(v.db.receipts, d, StakeOf(v, d).value)
    {
      if d != c {
        assert HeldFor(w.db.receipts, d, StakeOf(w, d).value);
        if StakeOf(w, d).value.leaf == at {
          SameLeafSameClaim(w, c, d);
        }
      }
    }
    forall i: nat | i < |v.db.receipts| && v.db.receipts[i].status in HELD
      ensures Claimed(v, i)
    {
      if i < n {
        assert i != at && v.db.receipts[i] == w.db.receipts[i];
        assert Claimed(w, i);
        assert Claim(KindFor(w.db.receipts[i].status), w.db.receipts[i].txnId.value.id) != c;
      } else {
        assert v.db.receipts[i] == kids[i - n];
      }
    }
  }

  /** Nothing held is touched and nothing becomes held. */
  lemma JoinedAside(w: World, v: World)
    requires Joined(w) && OnlyChanged(w, v, {})
    requires |w.db.receipts| <= |v.db.receipts|
    requires forall i: nat :: i < |v.db.receipts| ==>
               v.db.receipts[i].status in HELD || (i < |w.db.receipts| && w.db.receipts[i].status in HELD)
               ==> i < |w.db.receipts| && v.db.receipts[i] == w.db.receipts[i]
    ensures Joined(v)
  {
    hide StakeOf;
    forall d | StakeOf(v, d).Some?
      ensures HeldFor(v.db.receipts, d, StakeOf(v, d).value)
    {
      assert HeldFor(w.db.receipts, d, StakeOf(w, d).value);
    }
    forall i: nat | i < |v.db.receipts| && v.db.receipts[i].status in HELD
      ensures Claimed(v, i)
    {
      assert Claimed(w, i);
    }
  }

  /** Coupling is belonging together with the right weights. */
  lemma JoinedAndWeighed(v: World)
    requires Joined(v)
    requires forall c :: StakeOf(v, c).Some? ==>
               StakeOf(v, c).value.leaf < |v.db.receipts|
               && v.db.receipts[StakeOf(v, c).value.leaf].quantity == StakeOf(v, c).value.quantity
    ensures Coupled(v)
  {
    hide StakeOf, Claimed, HeldFor;
  }

  lemma CoupledAfterLettingGo(w: World, v: World, c: Claim, row: Receipt)
    requires Coupled(w) && StakeOf(w, c).Some? && StakeOf(v, c).None? && OnlyChanged(w, v, {c})
    requires var at := StakeOf(w, c).value.leaf;
             && at < |w.db.receipts| && v.db.receipts == w.db.receipts[at := row] && row.status !in HELD
    ensures Coupled(v)
  {
    hide StakeOf, Claimed;
    CoupledIsJoined(w);
    JoinedAfterLettingGo(w, v, c, row);
    forall d | StakeOf(v, d).Some?
      ensures Backs(v.db.receipts, d, StakeOf(v, d).value)
    {
      assert HeldFor(v.db.receipts, d, StakeOf(v, d).value) && Backs(w.db.receipts, d, StakeOf(w, d).value);
    }
    JoinedAndWeighed(v);
  }

  lemma CoupledAfterRewriting(w: World, v: World, c: Claim, d: Claim, row: Receipt)
    requires Coupled(w) && StakeOf(w, c).Some? && StakeOf(v, d).Some? && OnlyChanged(w, v, {c, d})
    requires c != d ==> StakeOf(v, c).None?
    requires var at := StakeOf(w, c).value.leaf;
             && at < |w.db.receipts| && v.db.receipts == w.db.receipts[at := row]
             && StakeOf(v, d).value.leaf == at && Backs(v.db.receipts, d, StakeOf(v, d).value)
    requires c != d ==> StakeOf(w, d).None?
    ensures Coupled(v)
  {
    hide StakeOf, Claimed;
    CoupledIsJoined(w);
    JoinedAfterRewriting(w, v, c, d, row);
    forall e | StakeOf(v, e).Some?
      ensures Backs(v.db.receipts, e, StakeOf(v, e).value)
    {
      assert HeldFor(v.db.receipts, e, StakeOf(v, e).value);
      if e != d {
        assert Backs(w.db.receipts, e, StakeOf(w, e).value);
        if StakeOf(w, e).value.leaf == StakeOf(w, c).value.leaf {
          SameLeafSameClaim(w, c, e);
        }
      }
    }
    JoinedAndWeighed(v);
  }

  lemma CoupledAfterHolding(w: World, v: World, c: Claim, at: nat, kids: seq<Receipt>)
    requires Coupled(w) && StakeOf(w, c).None? && StakeOf(v, c).Some? && OnlyChanged(w, v, {c})
    requires at < |w.db.receipts| && w.db.receipts[at].status !in HELD && 1 <= |kids| <= 2
    requires v.db.receipts == w.db.receipts[at := Superseded(w.db.receipts[at])] + kids
    requires StakeOf(v, c).value.leaf == |w.db.receipts| && Backs(v.db.receipts, c, StakeOf(v, c).value)
    requires |kids| == 2 ==> kids[1].status !in HELD
    ensures Coupled(v)
  {
    hide StakeOf, Claimed;
    CoupledIsJoined(w);
    JoinedAfterHolding(w, v, c, at, kids);
    forall d | StakeOf(v, d).Some?
      ensures Backs(v.db.receipts, d, StakeOf(v, d).value)
    {
      if d != c {
        assert Backs(w.db.receipts, d, StakeOf(w, d).value);
      }
    }
  }

  lemma CoupledAfterPartial(w: World, v: World, c: Claim, kids: seq<Receipt>)
    requires Coupled(w) && StakeOf(w, c).Some? && StakeOf(v, c).Some? && OnlyChanged(w, v, {c})
    requires |kids| == 2 && kids[0].status !in HELD
    requires var at, n := StakeOf(w, c).value.leaf, |w.db.receipts|;
             && at < n && v.db.receipts == w.db.receipts[at := Superseded(w.db.receipts[at])] + kids
             && StakeOf(v, c).value.leaf == n + 1 && Backs(v.db.receipts, c, StakeOf(v, c).value)
    ensures Coupled(v)
  {
    hide StakeOf, Claimed;
    CoupledIsJoined(w);
    JoinedAfterPartial(w, v, c, kids);
    forall d | StakeOf(v, d).Some?
      ensures Backs(v.db.receipts, d, StakeOf(v, d).value)
    {
      assert HeldFor(v.db.receipts, d, StakeOf(v, d).value);
      if d != c {
        assert Backs(w.db.receipts, d, StakeOf(w, d).value);
        if StakeOf(w, d).value.leaf == StakeOf(w, c).value.leaf {
          SameLeafSameClaim(w, c, d);
        }
      }
    }
    JoinedAndWeighed(v);
  }

  lemma CoupledAside(w: World, v: World)
    requires Coupled(w) && OnlyChanged(w, v, {})
    requires |w.db.receipts| <= |v.db.receipts|
    requires forall i: nat :: i < |v.db.receipts| ==>
               v.db.receipts[i].status in HELD || (i < |w.db.receipts| && w.db.receipts[i].status in HELD)
               ==> i < |w.db.receipts| && v.db.receipts[i] == w.db.receipts[i]
    ensures Coupled(v)
  {
    hide StakeOf, Claimed;
    CoupledIsJoined(w);
    JoinedAside(w, v);
    forall d | StakeOf(v, d).Some?
      ensures Backs(v.db.receipts, d, StakeOf(v, d).value)
    {
      assert Backs(w.db.receipts, d, StakeOf(w, d).value);
    }
  }

  // ----- Keys --------------------------------------------------------------

  lemma KeysAheadAfter(w: World, v: World, call: Call)
    requires KeysAhead(w)
    requires forall key :: KeyUsed(v.db.events, key) <==> KeyUsed(w.db.events, key) || Uses(call, key)
    requires forall key :: MayUse(v, key) ==> MayUse(w, key) && !Uses(call, key)
    ensures KeysAhead(v)
  {
    hide MayUse, KeyUsed, Uses;
  }

  lemma KeysAheadAside(w: World, v: World)
    requires KeysAhead(w) && v.db == w.db
    requires forall key :: MayUse(v, key) ==> MayUse(w, key)
    ensures KeysAhead(v)
  {
    hide MayUse, KeyUsed;
  }

  /** The same of the keys no pending request can repeat. */
  lemma KeysFreeAfter(w: World, v: World, call: Call)
    requires KeysFree(w)
    requires forall key :: KeyUsed(v.db.events, key) <==> KeyUsed(w.db.events, key) || Uses(call, key)
    requires forall key :: MayUse(v, key) && !MayRepeat(v, key) ==>
               MayUse(w, key) && !MayRepeat(w, key) && !Uses(call, key)
    ensures KeysFree(v)
  {
    hide MayUse, KeyUsed, Uses, MayRepeat;
  }

  lemma KeysFreeAside(w: World, v: World)
    requires KeysFree(w) && v.db == w.db
    requires forall key :: MayUse(v, key) && !MayRepeat(v, key) ==> MayUse(w, key) && !MayRepeat(w, key)
    ensures KeysFree(v)
  {
    hide MayUse, KeyUsed, MayRepeat;
  }

  // ----- What rests on the receipt table -----------------------------------

  /** What a ledger call leaves of the rows that were there. */
  ghost predicate RowsAged(before: seq<Receipt>, after: seq<Receipt>) {
    && |before| <= |after|
    && forall i: nat {:trigger after[i]} :: i < |before| ==> Ages(before[i], after[i])
  }

  lemma RowsStay(receipts: seq<Receipt>)
    ensures RowsAged(receipts, receipts)
  {
  }

  lemma AgedTwice(a: seq<Receipt>, b: seq<Receipt>, c: seq<Receipt>)
    requires RowsAged(a, b) && RowsAged(b, c)
    ensures RowsAged(a, c)
  {
    hide Rank;
    forall i: nat | i < |a|
      ensures Ages(a[i], c[i])
    {
      assert Ages(a[i], b[i]) && Ages(b[i], c[i]);
    }
  }

  lemma CallAgesRows(db: Db, call: Call)
    requires Sound(db)
    ensures RowsAged(db.receipts, Invoke(db, call).db.receipts)
  {
    hide Sound, Invoke, Ages;
    if |db.receipts| > 0 {
      CallAges(db, call, 0);
    } else {
      TableNeverShrinks(db, call);
    }
    forall i: nat | i < |db.receipts|
      ensures Ages(db.receipts[i], Invoke(db, call).db.receipts[i])
    {
      CallAges(db, call, i);
    }
  }

  lemma TableNeverShrinks(db: Db, call: Call)
    requires |db.receipts| == 0
    ensures 0 <= |Invoke(db, call).db.receipts|
  {
  }

  lemma RequestsAge(before: seq<Receipt>, after: seq<Receipt>, liens: map<nat, Lien>, later: map<nat, Lien>,
                    requests: seq<Request>)
    requires RequestsSound(before, liens, requests) && RowsAged(before, after)
    requires forall id :: id in liens ==> id in later && later[id].tenant == liens[id].tenant
    ensures RequestsSound(after, later, requests)
  {
    hide Rank;
    forall i | 0 <= i < |requests|
      ensures RequestSound(after, later, requests[i])
    {
      assert RequestSound(before, liens, requests[i]);
      forall k | 0 <= k < |requests[i].lines|
        ensures LineSound(after, later, requests[i], requests[i].lines[k])
      {
        assert LineSound(before, liens, requests[i], requests[i].lines[k]);
        assert Ages(before[requests[i].lines[k].receipt], after[requests[i].lines[k].receipt]);
      }
    }
  }

  lemma WithdrawalsFitLater(before: seq<Receipt>, after: seq<Receipt>, ws: seq<Withdrawal>)
    requires WithdrawalsFit(before, ws) && RowsAged(before, after)
    ensures WithdrawalsFit(after, ws)
  {
    forall i | 0 <= i < |ws|
      ensures WithdrawalFits(after, ws[i])
    {
      assert WithdrawalFits(before, ws[i]);
      assert Ages(before[ws[i].receipt], after[ws[i].receipt]);
    }
  }

  lemma WithdrawalsAge(before: seq<Receipt>, after: seq<Receipt>, now: int, ws: seq<Withdrawal>)
    requires WithdrawalsSound(before, now, ws) && RowsAged(before, after)
    ensures WithdrawalsSound(after, now, ws)
  {
    forall i | 0 <= i < |ws|
      ensures WithdrawalSound(after, now, ws[i])
    {
      assert WithdrawalSound(before, now, ws[i]);
      assert Ages(before[ws[i].receipt], after[ws[i].receipt]);
    }
  }

  lemma WindowAges(db: Db, after: Db, now: int, ws: seq<Withdrawal>)
    requires WindowSound(db.receipts, now, ws) && WithdrawalsSound(db.receipts, now, ws)
    requires RowsAged(db.receipts, after.receipts) && Conserved(NodesOf(after.receipts))
    ensures WindowSound(after.receipts, now, ws)
  {
    var n := |db.receipts|;
    forall x: nat | x < |after.receipts|
      ensures Sum(WithdrawalQuantities(ws), ReservingIds(ws, now, after.receipts[x].tenant, x))
           <= after.receipts[x].quantity
    {
      if x < n {
        assert Ages(db.receipts[x], after.receipts[x]);
      } else {
        forall i: nat | i < |ws|
          ensures i !in ReservingIds(ws, now, after.receipts[x].tenant, x)
        {
          assert WithdrawalSound(db.receipts, now, ws[i]);
        }
        SumEmpty(WithdrawalQuantities(ws), ReservingIds(ws, now, after.receipts[x].tenant, x));
        assert NodesOf(after.receipts)[x].quantity > 0;
      }
    }
  }

  /** Everything that rests on the receipt table survives a ledger call. */
  lemma RestingPartsSurvive(w: World, after: Db, liens: map<nat, Lien>)
    requires Healthy(w) && Sound(after) && RowsAged(w.db.receipts, after.receipts)
    requires forall id :: id in w.liens ==> id in liens && liens[id].tenant == w.liens[id].tenant
    ensures RequestsSound(after.receipts, liens, w.requests)
    ensures WithdrawalsSound(after.receipts, w.now, w.withdrawals)
    ensures WindowSound(after.receipts, w.now, w.withdrawals)
  {
    hide Coupled, KeysAhead, LiensSound, PledgesSound, WindowSound, WithdrawalsSound, RequestsSound, RowsAged, Lineage,
         StatusRules, EventsFit, Sourced, SharedBases;
    RequestsAge(w.db.receipts, after.receipts, w.liens, liens, w.requests);
    WithdrawalsAge(w.db.receipts, after.receipts, w.now, w.withdrawals);
    WindowAges(w.db, after, w.now, w.withdrawals);
  }
}
