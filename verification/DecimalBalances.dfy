/** What a call does to the balances over rounding columns, for any quantities. */
module DecimalBalances {
  import opened InventoryTypes
  import opened Ledger
  import opened LedgerInvariant
  import opened Totals
  import opened Balances
  import opened Decimals

  /** The grain a split adds when it leaves half a grain over. */
  function Extra(op: Op, g: int): int
    requires g > 0
  {
    if IsHalf(AskedQuantity(op), g) then g else 0
  }

  /** How a committed call moves the book of its receipt's tenant and commodity, but for
      the grain a split may add: as over exact columns, with the quantity as it is stored. */
  function StoredBookMove(r: Receipt, op: Op, g: int): int
    requires g > 0
  {
    match op
    case Seize(_, _, Some(quantity)) => -Stored(quantity, g)
    case _ => BookMove(r, op)
  }

  /** How it moves the available column of a client. */
  function StoredAvailableMove(r: Receipt, op: Op, client: string, g: int): int
    requires g > 0
  {
    match op
    case Hold(_, quantity, _, _, _) => When(client == r.client, Extra(op, g) - Stored(quantity, g))
    case ReleasePartial(_, quantity, _) => When(client == r.client, Stored(quantity, g))
    case Seize(_, _, Some(quantity)) => When(client == r.client, r.quantity - Stored(quantity, g) + Extra(op, g))
    case _ => AvailableMove(r, op, client)
  }

  /** And how it moves the locked column. */
  function StoredLockedMove(r: Receipt, op: Op, client: string, g: int): int
    requires g > 0
  {
    match op
    case Hold(_, quantity, _, _, _) => When(client == r.client, Stored(quantity, g))
    case ReleasePartial(_, quantity, _) => When(client == r.client, Extra(op, g) - Stored(quantity, g))
    case _ => LockedMove(r, op, client)
  }

  // ----- One call ----------------------------------------------------------

  /** The children of a split as they are stored: the part asked for, and a rest that makes
      up the source with the extra grain. */
  ghost predicate StoredKidsAre(kids: seq<Receipt>, src: Receipt, op: Op, g: int)
    requires g > 0
  {
    match op
    case Hold(_, quantity, heldStatus, _, _) =>
      && heldStatus in HELD && 1 <= |kids| <= 2
      && src.status == ACTIVE && src.approval == APPROVED
      && KidIs(kids[0], src, Stored(quantity, g), heldStatus, PENDING, src.client)
      && (if |kids| == 2
          then KidIs(kids[1], src, src.quantity + Extra(op, g) - Stored(quantity, g), ACTIVE, APPROVED, src.client)
          else src.quantity + Extra(op, g) == Stored(quantity, g))
    case ReleasePartial(_, quantity, _) =>
      && |kids| == 2 && src.status == HELD_LIEN
      && KidIs(kids[0], src, Stored(quantity, g), ACTIVE, APPROVED, src.client)
      && KidIs(kids[1], src, src.quantity + Extra(op, g) - Stored(quantity, g), HELD_LIEN, src.approval, src.client)
    case Seize(_, client, partial) =>
      && partial.Some? && |kids| == 2 && src.status == HELD_LOAN
      && KidIs(kids[0], src, Stored(partial.value, g), ReceiptStatus.SEIZED, APPROVED, client)
      && KidIs(kids[1], src, src.quantity + Extra(op, g) - Stored(partial.value, g), ACTIVE, APPROVED, src.client)
    case _ => false
  }

  lemma StoredSplitKids(db: Db, call: Call, w: Writes, g: int)
    requires g > 0 && Rounded(db.receipts, g) && Plan(db, call) == Ok(w) && w.change.Split?
    ensures !call.op.Deposit? && w.change.at == call.op.receipt < |db.receipts|
    ensures StoredKidsAre(StoredRows(w.change.kids, g), db.receipts[call.op.receipt], call.op, g)
  {
    hide Plan, Stored, IsHalf, Rounds, Rounded;
    SplitKids(db, call, w);
    PlanRounds(db, call, g);
    StoredSum(db.receipts, w.change, g, IsHalf(AskedQuantity(call.op), g));
  }

  lemma StoredSplitMovesColumns(receipts: seq<Receipt>, at: nat, kids: seq<Receipt>, op: Op, g: int,
                                tenant: string, client: string, commodity: string)
    requires g > 0 && at < |receipts| && StoredKidsAre(kids, receipts[at], op, g)
    ensures var r := receipts[at];
            var mine := r.tenant == tenant && r.commodity == commodity;
            && Shift(receipts, Split(at, kids), AvailableShare(tenant, client, commodity))
               == When(mine, StoredAvailableMove(r, op, client, g))
            && Shift(receipts, Split(at, kids), LockedShare(tenant, client, commodity))
               == When(mine, StoredLockedMove(r, op, client, g))
  {
    hide Stored, IsHalf, AskedQuantity;
  }

  lemma StoredSplitMovesBook(receipts: seq<Receipt>, at: nat, kids: seq<Receipt>, op: Op, g: int,
                             tenant: string, commodity: string)
    requires g > 0 && at < |receipts| && StoredKidsAre(kids, receipts[at], op, g)
    ensures var r := receipts[at];
            Shift(receipts, Split(at, kids), BookShare(tenant, commodity))
            == When(r.tenant == tenant && r.commodity == commodity, StoredBookMove(r, op, g) + Extra(op, g))
  {
    hide Stored, IsHalf, AskedQuantity;
  }

  lemma StoredRewriteMoves(db: Db, call: Call, w: Writes, g: int, tenant: string, client: string, commodity: string)
    requires g > 0 && RowRulesAt(db, call) && Plan(db, call) == Ok(w) && w.change.Rewrite?
    ensures !call.op.Deposit? && call.op.receipt < |db.receipts|
    ensures var r := db.receipts[call.op.receipt];
            var mine := r.tenant == tenant && r.commodity == commodity;
            && Shift(db.receipts, w.change, AvailableShare(tenant, client, commodity))
               == When(mine, StoredAvailableMove(r, call.op, client, g))
            && Shift(db.receipts, w.change, LockedShare(tenant, client, commodity))
               == When(mine, StoredLockedMove(r, call.op, client, g))
            && Shift(db.receipts, w.change, BookShare(tenant, commodity))
               == When(mine, StoredBookMove(r, call.op, g) + Extra(call.op, g))
  {
    hide Plan, AvailableShare, LockedShare, BookShare, Shift, RowRulesAt, Stored;
    RewriteMovesColumns(db, call, w, tenant, client, commodity);
    RewriteMovesBook(db, call, w, tenant, commodity);
    RewrittenRow(db, call, w);
  }

  lemma RulesAtItsRow(db: Db, call: Call)
    requires Framed(db) && Plan(db, call).Ok?
    ensures RowRulesAt(db, call)
  {
    hide Partition, Child, SplitSuffixes, Lineage, Sourced, RowRules;
    if !call.op.Deposit? {
      assert RowRules(db.receipts[call.op.receipt]);
    }
  }

  /** The three totals after a call against those before it. */
  ghost predicate Moves(before: seq<Receipt>, after: seq<Receipt>, tenant: string, client: string, commodity: string,
                        available: int, locked: int, book: int) {
    && Total(after, AvailableShare(tenant, client, commodity))
       == Total(before, AvailableShare(tenant, client, commodity)) + available
    && Total(after, LockedShare(tenant, client, commodity))
       == Total(before, LockedShare(tenant, client, commodity)) + locked
    && Total(after, BookShare(tenant, commodity)) == Total(before, BookShare(tenant, commodity)) + book
  }

  lemma ShiftsMove(receipts: seq<Receipt>, change: Change, tenant: string, client: string, commodity: string)
    requires change.Split? ==> 1 <= |change.kids| <= 2
    requires !change.Mint? ==> change.at < |receipts|
    ensures Moves(receipts, Changed(receipts, change), tenant, client, commodity,
                  Shift(receipts, change, AvailableShare(tenant, client, commodity)),
                  Shift(receipts, change, LockedShare(tenant, client, commodity)),
                  Shift(receipts, change, BookShare(tenant, commodity)))
  {
    hide Total, Shift, AvailableShare, LockedShare, BookShare, Changed;
    TotalShifts(receipts, change, AvailableShare(tenant, client, commodity));
    TotalShifts(receipts, change, LockedShare(tenant, client, commodity));
    TotalShifts(receipts, change, BookShare(tenant, commodity));
  }

  lemma StoredMintMoves(db: Db, call: Call, w: Writes, g: int, tenant: string, client: string, commodity: string)
    requires g > 0 && Plan(db, call) == Ok(w) && w.change.Mint?
    ensures call.op.Deposit?
    ensures var change := StoredChange(w.change, g);
            && Shift(db.receipts, change, AvailableShare(tenant, client, commodity)) == 0
            && Shift(db.receipts, change, LockedShare(tenant, client, commodity)) == 0
            && Shift(db.receipts, change, BookShare(tenant, commodity)) == 0
  {
    hide Plan, Stored;
    MintedAwaitsApproval(db, call, w);
  }

  /** Every balance after any call with any quantities: the available and the locked
      column of every tenant, client and commodity, and the book of all clients. */
  lemma StoredCallMovesColumns(db: Db, call: Call, g: int, tenant: string, client: string, commodity: string)
    requires g > 0 && Rounded(db.receipts, g) && Framed(db)
    ensures var after := StoredInvoke(db, call, g).db.receipts;
            if !Commits(db, call, g) || call.op.Deposit? then
              Moves(db.receipts, after, tenant, client, commodity, 0, 0, 0)
            else
              && call.op.receipt < |db.receipts|
              && var r := db.receipts[call.op.receipt];
                 var mine := r.tenant == tenant && r.commodity == commodity;
                 Moves(db.receipts, after, tenant, client, commodity,
                       When(mine, StoredAvailableMove(r, call.op, client, g)),
                       When(mine, StoredLockedMove(r, call.op, client, g)),
                       When(mine, StoredBookMove(r, call.op, g) + Extra(call.op, g)))
  {
    hide Plan, Framed, Rounded, StoredInvoke, Commits, Collides, Total, AvailableShare, LockedShare, BookShare, Shift,
         Stored, IsHalf, StoredAvailableMove, StoredLockedMove, StoredBookMove, Extra, RowRulesAt;
    StoredCallWrites(db, call, g);
    if Commits(db, call, g) {
      var w := Plan(db, call).value;
      var change := StoredChange(w.change, g);
      if w.change.Split? {
        StoredSplitKids(db, call, w, g);
        var at, kids := w.change.at, StoredRows(w.change.kids, g);
        StoredSplitMovesColumns(db.receipts, at, kids, call.op, g, tenant, client, commodity);
        StoredSplitMovesBook(db.receipts, at, kids, call.op, g, tenant, commodity);
      } else if w.change.Rewrite? {
        RulesAtItsRow(db, call);
        StoredRewriteMoves(db, call, w, g, tenant, client, commodity);
        RewrittenRow(db, call, w);
      } else {
        StoredMintMoves(db, call, w, g, tenant, client, commodity);
      }
      ShiftsMove(db.receipts, change, tenant, client, commodity);
    }
  }

  /** The primitives that move stock between columns and owners, and not on or off the books. */
  predicate StaysOnTheBooks(op: Op) {
    || op.Hold? || op.ApproveHold? || op.Release? || op.ReleasePartial? || op.TransitionPledgeToLien?
    || op.TransferOwnership? || op.TransferAndRelease?
  }

  function OnTheBook(tenant: string, commodity: string): (Receipt, Op) -> bool {
    (r: Receipt, op: Op) => r.tenant == tenant && r.commodity == commodity
  }

  /** Balance conservation across owners, for any quantities: holding, releasing and
      transferring leave the book of every tenant and commodity as it was, except that a
      hold or a partial release of theirs with half a grain over adds one grain to it; no
      other call does. */
  lemma BookStaysIffNotHalf(db: Db, call: Call, g: int, tenant: string, commodity: string)
    requires g > 0 && Rounded(db.receipts, g) && Framed(db) && StaysOnTheBooks(call.op)
    ensures var before, after := db.receipts, StoredInvoke(db, call, g).db.receipts;
            && Total(after, BookShare(tenant, commodity))
               == Total(before, BookShare(tenant, commodity))
                  + (if HalfSplit(db, call, g, OnTheBook(tenant, commodity)) then g else 0)
            && (Total(after, BookShare(tenant, commodity)) == Total(before, BookShare(tenant, commodity))
                <==> !HalfSplit(db, call, g, OnTheBook(tenant, commodity)))
  {
    hide Plan, Framed, Rounded, StoredInvoke, Commits, Total, BookShare, Stored;
    StoredCallMovesColumns(db, call, g, tenant, "", commodity);
    if Commits(db, call, g) {
      StoredCallWrites(db, call, g);
      OnlySplitsLeaveHalf(db, call, g);
    }
  }

  /** A quantity is asked for exactly by the splits and the deposit. */
  lemma OnlySplitsLeaveHalf(db: Db, call: Call, g: int)
    requires g > 0 && Plan(db, call).Ok? && StaysOnTheBooks(call.op)
    ensures IsHalf(AskedQuantity(call.op), g) ==> Plan(db, call).value.change.Split?
    ensures !call.op.Deposit? && call.op.receipt < |db.receipts|
  {
    hide SplitSuffixes, Child, Partition, KeyUsed, WithRelease;
  }

  /** A committed hold takes the stored quantity, less a grain if half a grain was left
      over, from the available column of the receipt's client, and adds the stored quantity
      to the locked one. The two differ exactly on a half. */
  lemma StoredHoldMovesColumns(db: Db, call: Call, g: int, tenant: string, client: string, commodity: string)
    requires g > 0 && Rounded(db.receipts, g) && Framed(db) && call.op.Hold? && Commits(db, call, g)
    ensures call.op.receipt < |db.receipts|
    ensures var r, after, q := db.receipts[call.op.receipt], StoredInvoke(db, call, g).db.receipts, call.op.quantity;
            var mine := r.tenant == tenant && r.commodity == commodity && r.client == client;
            && Total(after, AvailableShare(tenant, client, commodity))
               == Total(db.receipts, AvailableShare(tenant, client, commodity))
                  - When(mine, Stored(q, g) - (if IsHalf(q, g) then g else 0))
            && Total(after, LockedShare(tenant, client, commodity))
               == Total(db.receipts, LockedShare(tenant, client, commodity)) + When(mine, Stored(q, g))
  {
    hide Framed, Rounded, StoredInvoke, Commits, Total, AvailableShare, LockedShare, Stored, IsHalf;
    StoredCallMovesColumns(db, call, g, tenant, client, commodity);
  }

  /** A committed partial release is its mirror: the stored quantity enters the available
      column, and leaves the locked one but for a grain on a half. */
  lemma StoredPartialReleaseMovesColumns(db: Db, call: Call, g: int, tenant: string, client: string, commodity: string)
    requires g > 0 && Rounded(db.receipts, g) && Framed(db) && call.op.ReleasePartial? && Commits(db, call, g)
    ensures call.op.receipt < |db.receipts|
    ensures var r, after, q := db.receipts[call.op.receipt], StoredInvoke(db, call, g).db.receipts, call.op.quantity;
            var mine := r.tenant == tenant && r.commodity == commodity && r.client == client;
            && Total(after, LockedShare(tenant, client, commodity))
               == Total(db.receipts, LockedShare(tenant, client, commodity))
                  - When(mine, Stored(q, g) - (if IsHalf(q, g) then g else 0))
            && Total(after, AvailableShare(tenant, client, commodity))
               == Total(db.receipts, AvailableShare(tenant, client, commodity)) + When(mine, Stored(q, g))
  {
    hide Framed, Rounded, StoredInvoke, Commits, Total, AvailableShare, LockedShare, Stored, IsHalf;
    StoredCallMovesColumns(db, call, g, tenant, client, commodity);
  }
}
