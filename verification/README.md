# A verified model of the warehouse-receipt ledger and the services on it

The repository keeps warehouse receipts as an UTXO-style forest. A deposit mints a root;
holding, partially releasing or partially seizing a receipt splits it into children and
supersedes it; every other step changes a status or an owner in place. Each step appends an
event under a unique idempotency key inside one serializable transaction. Pledges, liens,
release requests, withdrawals, loans and trades keep a status row of their own and drive one
held leaf of that forest, in a separate transaction. This project models that code in Dafny
and proves what it keeps over whole runs.

How it is laid out:

- `Types`, `ReceiptNumbers`, `Sequences`, `Mass`, `Forest`, `Totals`: statuses, the numbering
  of children, sums over row positions, forests of parent pointers.
- `Ledger`: every primitive as a function on the receipt and event tables: what it plans to
  write, the unique constraints, the reply, the replay. `LedgerInvariant`, `Conservation`,
  `Replay`, `Balances`, `Recon`, `Retelling`: what any calls keep, and what a repeated call
  replies.
- `LedgerService`: the same primitives as methods that insert and overwrite rows step by step
  in a transaction, each proved to be its function. `ExactlyOnce`: any number of callers
  interleaved, with aborts, bounded retries and lost races.
- `Tables`, `Services`: the service rows and every service call as a function on the whole
  database (`Perform`), including one that stops between its two transactions
  (`Interrupted`). `Pledges`, `ReleaseRequests`, `Withdrawals`, `LoansAndTrades`: the services
  as classes over the tables, each method proved to be its action.
- `Coupling`, `Stability`, `Guards`, `Closing`, `Opening`, `Aside`, `ApprovalLoop`,
  `Reachable`: the invariant that ties rows to leaves, and that every action keeps it.
  `CrashRetry`, `StoppedCreates`, `ApprovalCrash`, `ApprovalRetry`, `Encumbrance`: what
  follows for calls that stop half way and for the encumbrance of a receipt.
- `Decimals`, `DecimalReplay`, `DecimalBalances`: the ledger over columns that round, and what
  conservation, replay and balances become there. `DecimalServices`, `DecimalRuns`,
  `DecimalCoupling`, `DecimalApproval`, `DecimalReachable`, `DecimalBooks`,
  `DecimalEncumbrance`: the services on top of it, and what any run of them reaches.
  `LineByLine`: the approval loop over leaves of any weight. `Scenarios`, `HalfWay`: concrete
  runs from the empty database.
- `Backfill`, `BackfillGate`, `StorageFees`: the legacy backfill and its gate, fee arithmetic.

Quantities are integers in the unit of the callers. Receipts and events keep three decimals
(prisma/schema.prisma:689,778), pledges, liens and request lines four (1518,1583-1584,1656),
and callers may send four. The results about runs in `LedgerInvariant`, `Conservation`, `Replay`,
`Balances`, `Recon`, `Coupling`, `Reachable`, `ApprovalLoop`, `Encumbrance` and what rests on them
are about quantities the columns store exactly, multiples of 0.001: for all such calls the rounding
ledger and the rounding services do what the exact ones do (`Decimals.WholeRunIsExact`,
`DecimalServices.WholeActionsAreExact`). For other quantities several of them fail. What holds
instead is proved for all of them, each with the condition under which the exact result survives:

- conservation: `Decimals.LeavesGainAGrainPerHalfSplit`, `Decimals.RunConservesIffNoHalfSplit`;
- replay: `DecimalReplay.ReplayAgreesIffNothingUntold`;
- balances: `DecimalBalances.StoredCallMovesColumns`, `DecimalBalances.BookStaysIffNotHalf`;
- coupling: rows and leaves stay one to one, and `DecimalReachable.ReachableLeavesWeigh` says what
  a leaf weighs;
- approvals and lien books: `LineByLine.ApprovalStopsAtTheFirstUncoveredLine`,
  `DecimalBooks.ReachableBooksIffNothingUnbooked`;
- encumbrance: `DecimalEncumbrance.BucketsGainAGrainPerHalfSplit`,
  `DecimalEncumbrance.ReleasePendingWithinIffRoom`.

Rows and events are named by the position at which they were inserted, a
pledge, loan or trade by the identifier drawn before its hold, a lien by its pledge. An
idempotency key is its colon-separated parts. A thrown exception is a refusal that leaves the
tables as the last committed transaction left them.

What the code forces on the statements:

- The results about service rows are about service calls run one at a time; ledger primitives
  are interleaved in `ExactlyOnce`. `release` accepts any held status, so two different service
  calls racing over one row are outside the claim.
- `Reachable.Admissible` lists the other assumptions: new identifiers are unused, a release
  request names distinct liens, the fee of a completed withdrawal can be computed, and deposits,
  approvals, rejections and expiries of receipts use keys of their own. What happens without the
  second and third is proved: `Reachable.RepeatedLinesOvercommit`,
  `Reachable.RepeatedLinesAreRefused`, `ApprovalLoop.RefusedApprovalKeepsItsFirstLines`,
  `CrashRetry.UnpricedCompletionIsACrash`.
- A user is compared whole, identifier and tenant, where the services compare the identifier:
  a user's tenant is taken never to change.

Where the code and its comments disagree, the code is followed:

- src/pledges/pledges.service.ts:96 calls three buckets the whole quantity; the exact condition
  is `Encumbrance.ThreeBucketsIffNothingElse`.
- src/pledges/pledges.service.ts:374-375 expects a SPLIT receipt to be pledgeable; it never is
  (`Encumbrance.PledgeSucceedsIffActive`).
- src/release-requests/release-requests.service.ts:354-356 promises that any stop inside the
  approval loop can be retried; the exact condition is
  `ApprovalCrash.ApprovalRetriesIffNoLineWasCompleted`, and what happens otherwise is
  `ApprovalRetry.RetryIsRefusedOrDeductsTwice`.
- src/release-requests/release-requests.financier.controller.ts:83 calls an approval atomic; a request
  that names a lien twice is carried out up to that line
  (`ApprovalLoop.RefusedApprovalKeepsItsFirstLines`).
- src/inventory/inventory-ledger.service.ts:678-679 says an accepted pledge is APPROVED; the
  transition to a lien leaves the approval as it was, PENDING.
- src/withdrawals/withdrawals.service.ts:290-294 describes a hold at request time; the hold is
  taken when the payment is confirmed.

## Model

| member | source | states |
|---|---|---|
| Conservation.RunConserves | src/inventory/inventory-ledger.service.ts:92-160 | after any calls, for quantities the columns store exactly: every SPLIT row equals the sum of its direct children, the leaves filed under each root add up to the root, every root column is the topmost ancestor |
| Conservation.RunAges | src/inventory/inventory-ledger.service.ts:270-357 | over any run a row never changes quantity, parent, root or number; each status change strictly lowers its rank, so there are at most three; a split row never gains or loses a child |
| Conservation.CallAges | src/inventory/inventory-ledger.service.ts:401-424 | one call ages every existing row and adds no child to a split one |
| Conservation.RunKeepsNumbersUnique | src/inventory/inventory-ledger.service.ts:646-667 | receipt numbers stay pairwise distinct over every run, and a whole lineage shares its root's base number |
| Conservation.SoundTreesBalance | src/inventory/inventory.recon.ts:18-44 | in a sound table, the leaves under any root weigh what the root weighs |
| Conservation.RootIsTop | src/inventory/inventory-ledger.service.ts:105-155 | the copied root column names the topmost ancestor reached over parent pointers |
| Conservation.LeavesOfAreLeavesBelow | src/inventory/inventory.recon.ts:22-31 | selecting leaves by root column and by the recursive query from the root gives the same rows |
| LedgerInvariant.CallKeepsSound | src/inventory/inventory-ledger.service.ts:46-69 | for quantities the columns store exactly: every ledger call, accepted, refused or replayed, keeps lineage, conservation, status rules, event links, unique keys, unique numbers and shared bases |
| LedgerInvariant.RunIsSound | src/inventory/inventory-ledger.service.ts:196-996 | for quantities the columns store exactly: so does every sequence of calls |
| LedgerInvariant.CallWritesItsPlan | src/inventory/inventory-ledger.service.ts:52-68 | a call changes nothing or carries out its whole plan; there is no half-written transaction |
| LedgerInvariant.PlanIsLawful | src/inventory/inventory-ledger.service.ts:270-357 | what any primitive hands to the database, before the columns round it: positive, exactly weighing, well-numbered children or a strictly lower status, and events that name rows on file |
| LedgerInvariant.KeepsConservation | src/inventory/inventory-ledger.service.ts:92-160 | where the children weigh their source exactly, a mint, a rewrite and a split keep parent = sum of children everywhere |
| LedgerInvariant.KeepsNumbers | src/inventory/inventory-ledger.service.ts:105-136 | the numbers of new children differ from all numbers on file and from each other |
| Replay.ReplayAgreesExactly | src/inventory/inventory-ledger.service.ts:807-849 | for quantities the columns store exactly: for every run and root, folding the root's events gives the tree's pending, available, held, withdrawn, seized, expired and cancelled mass if and only if no partial seizure handed anything back; otherwise it is off by exactly that mass |
| Replay.RunKeepsLogMatching | src/inventory/inventory-ledger.service.ts:425-450 | for quantities the columns store exactly: bucket by bucket, log and tree stay equal up to the mass handed back by partial seizures |
| Balances.GetBalance | src/inventory/inventory-query.service.ts:21-66 | the accumulator loops return, per commodity with a matching row, exactly the client's ACTIVE+APPROVED total and held total, and no other commodity |
| Balances.BalancesAddUp | src/inventory/inventory-query.service.ts:21-66 | available plus locked, summed over all clients, is the tenant's total of live stock of the commodity |
| Balances.BookIsConserved | src/inventory/inventory-ledger.service.ts:899-962 | for quantities the columns store exactly: that total moves only by an approved deposit, a consumption, an expiry or a seizure, each by its own quantity; hold, release, partial release and transfer leave it unchanged |
| Balances.CallMovesColumns | src/inventory/inventory-ledger.service.ts:199-996 | for quantities the columns store exactly: for every tenant, client and commodity: what any call adds to the available and the locked total, read off its source row and its arguments; every other column stays |
| Balances.HoldMovesColumns | src/inventory/inventory-ledger.service.ts:425-450 | for quantities the columns store exactly: after a hold, the client's available total has its quantity less and the locked total has it more, and every other column of every tenant is unchanged |
| Balances.ReleaseMovesColumns | src/inventory/inventory-ledger.service.ts:522-537 | for quantities the columns store exactly: after a full or partial release its quantity is back from locked to available of the same client, and every other column is unchanged |
| Balances.TransferMovesColumns | src/inventory/inventory-ledger.service.ts:925-957 | after a settlement exactly the held quantity has left the seller's locked total for the buyer's available one, and every other column is unchanged |
| ExactlyOnce.InterleavingIsSerial | src/inventory/inventory-ledger.service.ts:46-69 | for any number of interleaved callers and any failures: the database is what the committed calls leave run alone in commit order, no two commits share a key, and only callers that report a commit changed anything |
| ExactlyOnce.CommittedRepliesAreSerial | src/inventory/inventory-ledger.service.ts:56-68 | over whole schedules: a caller that commits replies what the call replies when it is run alone after the commits before it |
| ExactlyOnce.LateCallerNeverCommits | src/inventory/inventory-ledger.service.ts:51-54 | over whole schedules: a caller that starts once its key is on file never commits, whatever the others do |
| ExactlyOnce.RetryIsBounded | src/inventory/inventory.tx.ts:31-54 | every step of an unfinished caller brings it strictly closer to its end, within six steps, whatever the others do |
| ExactlyOnce.CommitIsTheCall | src/inventory/inventory-ledger.service.ts:56-68 | a commit inside the protocol leaves the database the whole call leaves when run alone |
| ExactlyOnce.UsedKeyCannotCommit | src/inventory/inventory-ledger.service.ts:43-44 | a transaction whose key is on file cannot commit |
| ExactlyOnce.WithSerializableTx | src/inventory/inventory.tx.ts:31-54 | the retry loop gives up exactly when all allowed attempts abort, and otherwise reports the first that does not |
| Forest.LeavesCarryTheWhole | src/inventory/inventory.recon.ts:46-50 | in any finite forest with matching flags, if every parent below a node weighs what its direct children weigh, its leaves weigh what it weighs |
| Forest.SplitConserves | src/inventory/inventory-ledger.service.ts:102-157 | splitting a leaf into exactly weighing children keeps the whole forest conserved |
| Recon.ReplayVerify | src/inventory/inventory.recon.ts:51-84 | ok exactly if the root exists, a DEPOSIT event of its quantity is on file and no flagged parent in its subtree is unbalanced |
| Recon.VerifyAll | src/inventory/inventory.recon.ts:90-117 | ok exactly if no flagged parent in the tenant's scope is unbalanced |
| Recon.NoBadParentReconciles | prisma/backfill/phase1-verify.ts:12-13 | the parent check below a node implies that reconcileRoot is balanced there, on any forest whose flags match |
| Recon.StaleFlagEscapesTheParentCheck | prisma/backfill/phase1-verify.ts:43-50 | a flagged row without children passes the parent check and still does not reconcile: the flags are needed |
| Recon.RunPassesEveryCheck | src/inventory/inventory.recon.ts:18-117 | for quantities the columns store exactly, every state a run reaches passes reconcileRoot at every node, replayVerify at every root and verifyAll for every scope |
| ReceiptNumbers.NextSuffix | src/inventory/inventory.tx.ts:83-102 | the carry loop returns the specified next suffix for every list of suffixes |
| ReceiptNumbers.NextFreeIsLeastAbove | src/inventory/inventory.tx.ts:83-102 | that suffix comes after all existing ones in length-then-alphabet order, and every suffix before it comes at or before the greatest existing one |
| ReceiptNumbers.OrderIsNumeric | src/inventory/inventory.tx.ts:85-88 | length-then-alphabet order of suffixes is the order of the numbers they denote in bijective base 26 |
| ReceiptNumbers.NumeralDenotes | src/inventory/inventory.tx.ts:89-101 | every positive number is denoted by a suffix |
| ReceiptNumbers.ValueDenotes | src/inventory/inventory.tx.ts:89-101 | and by exactly one |
| ReceiptNumbers.CarryAddsOne | src/inventory/inventory.tx.ts:94-101 | turning trailing Z into A and raising the letter before them adds one |
| ReceiptNumbers.GreatestIsAbove | src/inventory/inventory.tx.ts:85-88 | the greatest suffix denotes no less than any other |
| ReceiptNumbers.GreatestIsLast | src/inventory/inventory.tx.ts:85-88 | however the list is sorted by the comparator, the last element of the sorted list is the greatest |
| ReceiptNumbers.BaseOfChild | src/inventory/inventory.tx.ts:79-81 | taking the base of a child's number gives back the base it was built on, for every base and suffix |
| ReceiptNumbers.ExistingSuffixesComplete | src/inventory/inventory.tx.ts:104-115 | a suffix is among the existing ones exactly if the number with it is on file |
| ReceiptNumbers.SplitNumbersAreNew | src/inventory/inventory-ledger.service.ts:105-136 | both numbers handed out by a split are new to the table and differ from each other |
| InventoryTypes.GroupFilterFindsReceipt | src/inventory/inventory.types.ts:92-112 | a receipt is found by the status filter of its own group exactly if it is not ACTIVE with approval PENDING, and is found by no other group otherwise |
| Retelling.InPlaceRepliesTheSame | src/inventory/inventory-ledger.service.ts:51-54 | after any further calls, repeating a call that changed its receipt in place changes nothing and returns the original reply |
| Retelling.HoldRepliesTheSameIff | src/inventory/inventory-ledger.service.ts:374-388 | after any further calls, repeating a hold changes nothing and returns the original reply if and only if the held child is still held and the remainder, if any, still ACTIVE |
| Retelling.PartialReleaseRepliesTheSameIff | src/inventory/inventory-ledger.service.ts:594-604 | the same of a partial release: if and only if the released part is still ACTIVE and the rest still held for the lien |
| Retelling.PartialSeizureRepliesTheSameIff | src/inventory/inventory-ledger.service.ts:779-790 | the same of a partial seizure: if and only if the part handed back is still ACTIVE |
| Retelling.WholeSeizureRepliesTheSame | src/inventory/inventory-ledger.service.ts:779-790 | a repeated whole seizure always returns the original reply |
| Coupling.CouplingIsOneToOne | src/pledges/pledges.service.ts:449-478 | under the coupling invariant a leaf is held exactly if an open row claims it, and no two rows claim one leaf |
| Coupling.UnusedKeyCommits | src/inventory/inventory-ledger.service.ts:52-68 | a planned call under unused keys commits its whole plan, keeps soundness and puts exactly its own keys on file |
| Reachable.ReachableIsHealthy | src/release-requests/release-requests.service.ts:358-479 | for quantities the columns store exactly: every state reachable by admissible service calls run one at a time satisfies the whole invariant: coupling, unused keys ahead of open rows, lien books, request lines, reservations |
| Reachable.ReachableCoupling | src/pledges/pledges.service.ts:667-699 | in all of them, for quantities the columns store exactly: a leaf is held iff an open row claims it; each open row's leaf has the row's kind, tenant and quantity (for a lien, what remains); rows and leaves are one to one |
| Reachable.ReachableLienBooks | src/release-requests/release-requests.service.ts:122-189 | for quantities the columns store exactly: in all of them: quantity = remaining + approved lines for liens never force-released, and pending lines ask of a live lien at most what remains |
| Reachable.ReachableWindow | src/withdrawals/withdrawals.service.ts:365-419 | in all of them: unpaid withdrawals inside the 30-minute window ask of a receipt at most its quantity, at most one per client |
| Reachable.ActionKeepsHealthy | src/release-requests/release-requests.service.ts:358-479 | for quantities the columns store exactly: every single service call keeps the invariant, whether it succeeds, is refused or throws |
| Reachable.PassedGuardsSucceed | src/loans/loans.service.ts:196-262 | status guards imply ledger guards, for quantities the columns store exactly: past its own row check, every call that opens no new hold succeeds |
| Reachable.OnlyForceReleaseBlocksApproval | src/release-requests/release-requests.service.ts:392-408 | a pending request passes the check at approval if and only if none of its liens has been force-released |
| Reachable.ApprovingRequestKeepsHealthy | src/release-requests/release-requests.service.ts:392-465 | for quantities the columns store exactly, approving a pending request succeeds and keeps the invariant |
| Reachable.RepeatedLinesOvercommit | src/release-requests/release-requests.service.ts:122-189 | two lines naming one lien pass the per-line check and together ask twice what is left |
| Reachable.RepeatedLinesAreRefused | src/release-requests/release-requests.service.ts:392-445 | such a request passes the check at approval too, and the ledger refuses it at its second line |
| Guards.GuardsSuffice | src/trades/trades.service.ts:223-255 | accept, cancel, reject, expire, force-release, approve, complete, repay and settle find their own leaf ready, for the row's tenant, under unused keys |
| Closing.RowActionKeepsHealthy | src/withdrawals/withdrawals.service.ts:690-711 | every action on an open row, once past its own check, succeeds and keeps the invariant |
| Closing.ClosingKeepsHealthy | src/loans/loans.service.ts:222-262 | closing a row lets exactly its leaf go |
| Closing.AcceptingKeepsHealthy | src/pledges/pledges.service.ts:667-699 | accepting turns the pledge's leaf into the lien's, with the pledge's quantity as both lien quantities |
| Closing.RejectingUnheldKeepsHealthy | src/withdrawals/withdrawals.service.ts:766-798 | rejecting a withdrawal that holds nothing only writes the row |
| Opening.OpensOrChangesNothing | src/pledges/pledges.service.ts:449-478 | opening a pledge, loan, trade or paid withdrawal succeeds exactly if the ledger can hold, and otherwise leaves the whole database unchanged |
| Opening.ConfirmationSucceedsIffActive | src/withdrawals/withdrawals.service.ts:645-664 | a payment confirmation past its own check succeeds exactly if the receipt is still ACTIVE: only another hold or an expiry can make it lose |
| Aside.RequestingKeepsHealthy | src/release-requests/release-requests.service.ts:122-228 | a release request over distinct liens is filed and never over-commits one |
| Aside.DroppingRequestKeepsHealthy | src/release-requests/release-requests.service.ts:264-286 | cancelling or rejecting a request frees its reservations and nothing else |
| Aside.BookingKeepsHealthy | src/withdrawals/withdrawals.service.ts:365-419 | a new unpaid withdrawal fits beside the reservations inside the window |
| Aside.CleanupChangesNothingAvailable | src/withdrawals/withdrawals.cleanup.service.ts:51-88 | expiring stale unpaid withdrawals changes, for no receipt, what is available for withdrawal |
| Aside.TimeKeepsHealthy | src/withdrawals/withdrawals.service.ts:555-573 | the passing of time keeps every reservation bound |
| Aside.DeskKeepsHealthy | src/inventory/inventory-ledger.service.ts:199-357 | deposits, approvals, rejections and expiries under their own keys leave every open row and held leaf alone |
| ApprovalLoop.ApprovalSucceedsIffDistinct | src/release-requests/release-requests.service.ts:364-381 | for quantities the columns store exactly: the approval of a validated request succeeds if and only if its lines name distinct liens; otherwise the ledger refuses a stale leaf and the request stays pending |
| ApprovalLoop.RefusedApprovalKeepsItsFirstLines | src/release-requests/release-requests.service.ts:364-381 | for quantities the columns store exactly: a refused approval is not all-or-nothing: exactly the lines before the first repeated lien stay carried out, and the request stays pending |
| ApprovalLoop.ApprovalIsAllOrNothing | src/release-requests/release-requests.service.ts:419-465 | for quantities the columns store exactly: over distinct liens: each lien is left with exactly its line less, ACTIVE mass grows by the sum of the lines, trees without a released leaf are unchanged, exactly the lines' keys are spent |
| ApprovalLoop.DistinctLinesProgress | src/release-requests/release-requests.service.ts:419-456 | for quantities the columns store exactly: after n lines of the loop, exactly those n lines have been carried out |
| ApprovalLoop.RepeatedLineIsRefused | src/release-requests/release-requests.service.ts:419-445 | a line that repeats a lien reads its old leaf off the snapshot and is refused |
| ApprovalCrash.ApprovalRetriesIffNoLineWasCompleted | src/release-requests/release-requests.service.ts:354-356 | approving again after a stop equals one uninterrupted approval if and only if no line had been completed, whatever the number of lines |
| ApprovalCrash.StartedApprovalDiffers | src/release-requests/release-requests.service.ts:354-356 | after a completed line the retry is refused or takes that line off its lien a second time |
| ApprovalRetry.RetryIsRefusedOrDeductsTwice | src/release-requests/release-requests.service.ts:354-356 | which of the two, for any number of completed lines and a stop inside a line: the retry goes through exactly if every completed line asked for at most half of what its lien had left, and then takes each of them off twice; otherwise its own check refuses it and nothing changes |
| LineByLine.LoopGoesIffEachLineGoes | src/release-requests/release-requests.service.ts:419-456 | in any state, healthy or not, the loop over distinct liens and leaves goes through exactly if each of its lines, run alone, does |
| ApprovalCrash.FirstLineRetries | src/inventory/inventory-ledger.service.ts:594-604 | a line whose ledger call committed before its lien was written can be run again |
| CrashRetry.RetryEqualsOneCall | src/pledges/pledges.service.ts:667-699 | stopping between ledger commit and row write and repeating the call equals one call: accept, reject, cancel, expire pledge, force-release, approve/reject/complete withdrawal, approve/reject/repay loan, cancel trade |
| CrashRetry.ConfirmationRetries | src/withdrawals/withdrawals.service.ts:645-664 | the same for a payment confirmation, whose repeat finds the held child again |
| CrashRetry.RepliesAgain | src/inventory/inventory-ledger.service.ts:51-54 | repeating a committed call changes nothing and answers |
| CrashRetry.CreateOrphansItsLeaf | src/pledges/pledges.service.ts:446-478 | a create that stops after its hold leaves a held leaf no row claims, on a receipt that is split by then |
| StoppedCreates.RepeatedCreateIsRefused | src/pledges/pledges.service.ts:446-478 | and repeating the create under another identifier, in the very state the stop left, is refused and changes nothing: by the ledger, or for a pledge of more than is left in the receipt's own tree by its own check |
| CrashRetry.OnlyActiveCanBeOpened | src/inventory/inventory-ledger.service.ts:401-416 | in any state, a new row over a receipt that is not ACTIVE is refused by the ledger without effect |
| CrashRetry.UnpricedCompletionIsACrash | src/withdrawals/withdrawals.service.ts:836-873 | a completion whose fee cannot be computed leaves its row approved on a consumed leaf, until it is repeated with a policy in place |
| CrashRetry.AcceptRetriesUntilExpiry | src/pledges/pledges.service.ts:645-650 | a stopped accept can be repeated exactly until the pledge expires |
| CrashRetry.CrashedAcceptIsUndone | src/pledges/pledges.service.ts:795-809 | otherwise the expiry, rejection or cancellation of the pledge releases the leaf, already held for a lien, and restores the invariant |
| CrashRetry.OtherCallIsRefused | src/withdrawals/withdrawals.service.ts:766-798 | after any other closing call that stopped, a different call on the same row that goes to the ledger is refused there, and nothing changes |
| CrashRetry.StoppedCompletionCanBeRejected | src/withdrawals/withdrawals.service.ts:766-798 | a rejection goes past the ledger once the receipt is not held: after a stopped completion the goods are consumed and the withdrawal can still be marked rejected |
| Encumbrance.GetReceiptEncumbrance | src/pledges/pledges.service.ts:104-175 | the loops return the tree's ACTIVE, pledge-pending and liened mass and the pending lines on its liened leaves |
| Encumbrance.BucketsAndTheRestAddUp | src/pledges/pledges.service.ts:124-160 | for quantities the columns store exactly: for every root the three buckets, other holds, stock awaiting approval and closed stock add up to the total quantity |
| Encumbrance.ThreeBucketsIffNothingElse | src/pledges/pledges.service.ts:96 | for quantities the columns store exactly: the three buckets alone equal the total exactly if the tree has no other kind of leaf |
| Encumbrance.LeafIsItsWholeTree | src/pledges/pledges.service.ts:395-407 | for an ACTIVE leaf the available figure is its own quantity, the bound hold enforces |
| Encumbrance.PledgeSucceedsIffActive | src/pledges/pledges.service.ts:374-385 | past all its own checks a pledge succeeds exactly if its receipt is ACTIVE; a SPLIT or unapproved receipt passes the checks and is refused by the hold without effect |
| Encumbrance.ReleasePendingWithinLiened | src/pledges/pledges.service.ts:162-175 | for quantities the columns store exactly: the pending release figure never exceeds the liened figure |
| LedgerService.InventoryLedgerService.Deposit | src/inventory/inventory-ledger.service.ts:199-260 | on a transaction's own copy: writes exactly what the specified primitive writes and returns its reply, or fails with its error |
| LedgerService.InventoryLedgerService.ApproveReceipt | src/inventory/inventory-ledger.service.ts:270-307 | on a transaction's own copy: writes exactly what the specified primitive writes and returns its reply, or fails with its error |
| LedgerService.InventoryLedgerService.RejectReceipt | src/inventory/inventory-ledger.service.ts:315-350 | on a transaction's own copy: writes exactly what the specified primitive writes and returns its reply, or fails with its error |
| LedgerService.InventoryLedgerService.Hold | src/inventory/inventory-ledger.service.ts:389-460 | on a transaction's own copy: writes exactly what the specified primitive writes and returns its reply, or fails with its error |
| LedgerService.InventoryLedgerService.ApproveHold | src/inventory/inventory-ledger.service.ts:472-507 | on a transaction's own copy: writes exactly what the specified primitive writes and returns its reply, or fails with its error |
| LedgerService.InventoryLedgerService.Release | src/inventory/inventory-ledger.service.ts:509-539 | on a transaction's own copy: writes exactly what the specified primitive writes and returns its reply, or fails with its error |
| LedgerService.InventoryLedgerService.Consume | src/inventory/inventory-ledger.service.ts:541-567 | on a transaction's own copy: writes exactly what the specified primitive writes and returns its reply, or fails with its error |
| LedgerService.InventoryLedgerService.ReleasePartial | src/inventory/inventory-ledger.service.ts:605-701 | on a transaction's own copy: writes exactly what the specified primitive writes and returns its reply, or fails with its error |
| LedgerService.InventoryLedgerService.TransitionPledgeToLien | src/inventory/inventory-ledger.service.ts:716-764 | on a transaction's own copy: writes exactly what the specified primitive writes and returns its reply, or fails with its error |
| LedgerService.InventoryLedgerService.Seize | src/inventory/inventory-ledger.service.ts:789-850 | on a transaction's own copy: writes exactly what the specified primitive writes and returns its reply, or fails with its error |
| LedgerService.InventoryLedgerService.TransferOwnership | src/inventory/inventory-ledger.service.ts:856-890 | on a transaction's own copy: writes exactly what the specified primitive writes and returns its reply, or fails with its error |
| LedgerService.InventoryLedgerService.TransferAndRelease | src/inventory/inventory-ledger.service.ts:919-962 | on a transaction's own copy: writes exactly what the specified primitive writes and returns its reply, or fails with its error |
| LedgerService.InventoryLedgerService.Expire | src/inventory/inventory-ledger.service.ts:967-995 | on a transaction's own copy: writes exactly what the specified primitive writes and returns its reply, or fails with its error |
| LedgerService.InventoryLedgerService.Partition | src/inventory/inventory-ledger.service.ts:92-160 | appends the primary child and, if anything is left, an ACTIVE remainder, under the next free numbers, and supersedes the source |
| LedgerService.InventoryLedgerService.RunIdempotent | src/inventory/inventory-ledger.service.ts:46-69 | a whole call: answers a key on file from its event, otherwise commits the body's writes or nothing, and says whether it committed |
| LedgerService.SplitNumbersStayFree | src/inventory/inventory-ledger.service.ts:105-136 | the unique index on receipt numbers never refuses a split |
| LedgerService.CommitsAdvance | src/inventory/inventory-ledger.service.ts:899-918 | a committed transaction has put an event on file |
| Pledges.PledgesService.CreatePledge | src/pledges/pledges.service.ts:345-491 | the method leaves the database and gives the verdict that its specified action does, and keeps a healthy database healthy |
| Pledges.PledgesService.CancelPledge | src/pledges/pledges.service.ts:528-552 | the method leaves the database and gives the verdict that its specified action does, and keeps a healthy database healthy |
| Pledges.PledgesService.AcceptPledge | src/pledges/pledges.service.ts:628-699 | the method leaves the database and gives the verdict that its specified action does, and keeps a healthy database healthy |
| Pledges.PledgesService.RejectPledge | src/pledges/pledges.service.ts:715-752 | the method leaves the database and gives the verdict that its specified action does, and keeps a healthy database healthy |
| Pledges.PledgesService.ExpirePledge | src/pledges/pledges.service.ts:797-810 | the method leaves the database and gives the verdict that its specified action does, and keeps a healthy database healthy |
| Pledges.PledgesService.ExpireStalePledges | src/pledges/pledges.service.ts:779-838 | over a healthy database the loop expires every stale pledge, counts them all, changes no other row and leaves the database healthy |
| Pledges.AdminLiensService.ForceReleaseLien | src/admin-liens/admin-liens.service.ts:40-101 | the method leaves the database and gives the verdict that its specified action does, and keeps a healthy database healthy; a lien already force-released is left alone |
| ReleaseRequests.ReleaseRequestsService.CreateReleaseRequest | src/release-requests/release-requests.service.ts:88-215 | the method leaves the database and gives the verdict that its specified action does, and keeps a healthy database healthy |
| ReleaseRequests.ReleaseRequestsService.CancelReleaseRequest | src/release-requests/release-requests.service.ts:264-286 | the method leaves the database and gives the verdict that its specified action does, and keeps a healthy database healthy |
| ReleaseRequests.ReleaseRequestsService.RejectReleaseRequest | src/release-requests/release-requests.service.ts:481-508 | the method leaves the database and gives the verdict that its specified action does, and keeps a healthy database healthy |
| ReleaseRequests.ReleaseRequestsService.ApproveReleaseRequest | src/release-requests/release-requests.service.ts:358-465 | the method leaves the database and gives the verdict that its specified action does, and keeps a healthy database healthy |
| ReleaseRequests.ReleaseRequestsService.ReleaseOneLine | src/release-requests/release-requests.service.ts:419-456 | one turn of the loop: the ledger call of the line, then its lien, off the snapshot |
| ReleaseRequests.ReleaseRequestsService.PendingForLien | src/release-requests/release-requests.service.ts:122-134 | the sum of the pending lines on a lien |
| ReleaseRequests.ReleaseRequestsService.ValidateLine | src/release-requests/release-requests.service.ts:138-189 | the checks on one line, in their order |
| Withdrawals.WithdrawalsService.CreateWithdrawal | src/withdrawals/withdrawals.service.ts:295-475 | the method leaves the database and gives the verdict that its specified action does, and keeps a healthy database healthy |
| Withdrawals.WithdrawalsService.ConfirmPayment | src/withdrawals/withdrawals.service.ts:583-664 | the method leaves the database and gives the verdict that its specified action does, and keeps a healthy database healthy |
| Withdrawals.WithdrawalsService.ApproveWithdrawal | src/withdrawals/withdrawals.service.ts:690-711 | the method leaves the database and gives the verdict that its specified action does, and keeps a healthy database healthy |
| Withdrawals.WithdrawalsService.RejectWithdrawal | src/withdrawals/withdrawals.service.ts:743-798 | the method leaves the database and gives the verdict that its specified action does, and keeps a healthy database healthy |
| Withdrawals.WithdrawalsService.CompleteWithdrawal | src/withdrawals/withdrawals.service.ts:825-873 | the method leaves the database and gives the verdict that its specified action does, and keeps a healthy database healthy |
| Withdrawals.WithdrawalsService.Available | src/withdrawals/withdrawals.service.ts:555-573 | the receipt's quantity less the unpaid rows inside the window |
| Withdrawals.WithdrawalsService.HasReservation | src/withdrawals/withdrawals.service.ts:365-398 | whether the client has a live unpaid withdrawal of the receipt |
| Withdrawals.WithdrawalsCleanupService.ExpirePendingPayment | src/withdrawals/withdrawals.cleanup.service.ts:51-84 | rejects exactly the unpaid rows older than the window |
| LoansAndTrades.LoansService.CreateLoan | src/loans/loans.service.ts:92-158 | the method leaves the database and gives the verdict that its specified action does, and keeps a healthy database healthy |
| LoansAndTrades.LoansService.ApproveLoan | src/loans/loans.service.ts:196-211 | the method leaves the database and gives the verdict that its specified action does, and keeps a healthy database healthy |
| LoansAndTrades.LoansService.RejectLoan | src/loans/loans.service.ts:222-237 | the method leaves the database and gives the verdict that its specified action does, and keeps a healthy database healthy |
| LoansAndTrades.LoansService.RepayLoan | src/loans/loans.service.ts:248-263 | the method leaves the database and gives the verdict that its specified action does, and keeps a healthy database healthy |
| LoansAndTrades.TradesService.CreateTrade | src/trades/trades.service.ts:114-160 | the method leaves the database and gives the verdict that its specified action does, and keeps a healthy database healthy |
| LoansAndTrades.TradesService.SettleTrade | src/trades/trades.service.ts:204-255 | the method leaves the database and gives the verdict that its specified action does, and keeps a healthy database healthy |
| LoansAndTrades.TradesService.CancelTrade | src/trades/trades.service.ts:292-307 | the method leaves the database and gives the verdict that its specified action does, and keeps a healthy database healthy |
| Backfill.Chain | prisma/backfill/phase1-backfill.ts:29-35 | the recursive query reaches every row of an acyclic forest, from its topmost ancestor |
| Backfill.Phase1Backfill.SetRoots | prisma/backfill/phase1-backfill.ts:28-40 | every root column becomes the topmost ancestor, nothing else changes |
| Backfill.Phase1Backfill.PromoteParents | prisma/backfill/phase1-backfill.ts:43-50 | exactly the rows with children become SPLIT parents |
| Backfill.Phase1Backfill.StepA | prisma/backfill/phase1-backfill.ts:26-52 | both, computed from the table as it was |
| Backfill.Phase1Backfill.InsertGenesis | prisma/backfill/phase1-backfill.ts:55-67 | exactly one genesis event per root is on file, with the root's quantity; nothing is inserted if all roots are linked |
| Backfill.Phase1Backfill.LinkGenesis | prisma/backfill/phase1-backfill.ts:68-75 | every root is linked to its genesis event, nothing else changes |
| Backfill.Phase1Backfill.StepB | prisma/backfill/phase1-backfill.ts:54-77 | both; and nothing if every root was linked before |
| Backfill.Phase1Backfill.StepC | prisma/backfill/phase1-backfill.ts:81-204 | closes exactly the gaps that are positive and not reconciled before, collects exactly the over-allocated roots, and stops exactly if the number of a reconciling child is taken |
| Backfill.BackfilledIsSettled | prisma/backfill/phase1-backfill.ts:26-204 | a run that met no taken number leaves a settled table: a second run finds nothing to close |
| Backfill.Phase1Backfill.RunTwice | prisma/backfill/phase1-backfill.ts:206-213 | a second run leaves receipts and events as the first left them, and ends the same way |
| BackfillGate.TakenNumberStopsTheRun | prisma/backfill/phase1-backfill.ts:157-186 | a concrete legacy table on which a run meets a taken number and stops with that gap open |
| Backfill.Phase1Backfill.Run | prisma/backfill/phase1-backfill.ts:206-213 | one run backfills any acyclic forest up to the first taken number, if there is one, keeps numbers and keys distinct, aborts exactly over the over-allocated roots, and writes nothing over a settled table |
| Backfill.RunBackfills | prisma/backfill/phase1-backfill.ts:26-204 | what a run amounts to: right roots, linked genesis, identities kept, every closable gap closed and no other changed, nothing left to close for a second run |
| Backfill.AttachClosesGap | prisma/backfill/phase1-backfill.ts:157-186 | a child of the gap's weight closes the gap of its root and changes no other tree |
| Backfill.LoneRootHasNoGap | prisma/backfill/phase1-backfill.ts:92-95 | an unflagged root without children has no gap, so reconciling never splits a leaf |
| Backfill.ReconNumberFree | prisma/backfill/phase1-backfill.ts:159 | the -RCN number of a child is free exactly if no legacy row has it: the children of other roots never take it |
| BackfillGate.Verify | prisma/backfill/phase1-verify.ts:29-98 | lists exactly the checks that fail |
| BackfillGate.GateAfterRun | prisma/backfill/phase1-verify.ts:32-91 | after a run checks 1 and 4 hold of any forest, and check 3 exactly if every root's gap was zero or closable |
| BackfillGate.ParentsBalanceAfterRun | prisma/backfill/phase1-verify.ts:38-50 | over honest flags, check 2 holds after the run exactly if the parents that are not roots balanced before it |
| BackfillGate.LeavesWeighTheKids | prisma/backfill/phase1-verify.ts:12-13 | if everything strictly below a root balances, its leaves weigh what its direct children weigh |
| Decimals.StoredIsNearest | prisma/schema.prisma:689 | a quantity is rounded to the nearest value of the column, halves away from zero, and is stored as sent exactly if it is one of those values |
| Decimals.SplitStores | src/inventory/inventory-ledger.service.ts:102-157 | the two stored parts of a split weigh the whole, or one grain more exactly if half a grain was left over |
| Decimals.WholeRunIsExact | prisma/schema.prisma:689-778 | runs whose quantities the columns store exactly leave what the exact ledger leaves, so everything proved of runs holds of them |
| Decimals.LeavesGainAGrainPerHalfSplit | src/inventory/inventory-ledger.service.ts:92-160 | after any calls with any quantities, the leaves under a root weigh a grain more than the root for each split in its tree that left half a grain over, and reconcile exactly if none did |
| Decimals.SplitRowBalancesIffNotHalf | src/inventory/inventory-ledger.service.ts:92-160 | after any calls with any quantities, a SPLIT row weighs its direct children exactly if its own split left no half grain over |
| Decimals.RunConservesIffNoHalfSplit | src/inventory/inventory-ledger.service.ts:92-160 | all SPLIT rows of a run weigh their children if and only if no call split with half a grain over |
| DecimalServices.WholeActionsAreExact | src/pledges/dto/pledges.dto.ts:27-30 | runs of service calls whose quantities the columns store exactly leave what the exact services leave, so everything proved of reachable states holds of them |
| DecimalServices.HoldStores | src/inventory/inventory-ledger.service.ts:401-460 | the held leaf weighs the rounded quantity, equal to the one asked for exactly if that is a multiple of the grain; leaf and remainder weigh the source exactly if no half grain was left over |
| DecimalServices.PledgeAgreesIffWhole | src/pledges/pledges.service.ts:449-478 | the row of a pledge keeps four decimals and its leaf three; they agree exactly if the quantity is a multiple of the grain |
| LineByLine.ApprovalSucceedsIffLeavesCover | src/release-requests/release-requests.service.ts:401-441 | whatever the leaves weigh, an approval over distinct liens succeeds exactly if each line takes the whole of its lien or less than its leaf weighs |
| DecimalRuns.RunIsItsCalls | src/inventory/inventory-ledger.service.ts:46-69 | the ledger under any run of service calls over rounding columns is what the ledger calls of the run, made one after the other, leave: the results about runs of calls are about the services |
| DecimalRuns.ReachedIsRoundedAndFramed | src/inventory/inventory-ledger.service.ts:92-160 | in every state any such run reaches, rows hold column values, lineage and status rules, which is all the results about single calls ask for |
| DecimalReplay.ReplayAgreesIffNothingUntold | src/inventory/inventory-ledger.service.ts:807-849 | after any calls with any quantities: the log of a tree falls short of it by one grain per hold (available mass), partial release (held) and partial seizure (seized) that left half a grain over, besides what partial seizures handed back; all masses agree if and only if there was nothing of either |
| DecimalBalances.StoredCallMovesColumns | src/inventory/inventory-ledger.service.ts:199-996 | for any quantities: what any call adds to the available and locked total of every tenant, client and commodity and to the total over all clients, in stored quantities and the grain of a half split |
| DecimalBalances.BookStaysIffNotHalf | src/inventory/inventory-ledger.service.ts:899-962 | for any quantities: hold, release, partial release and transfer leave the total over all clients unchanged if and only if the call is not a split with half a grain over; otherwise it grows by one grain |
| DecimalBalances.StoredHoldMovesColumns | src/inventory/inventory-ledger.service.ts:425-450 | for any quantity, a hold adds the stored quantity to locked and takes it from available, less a grain exactly if half a grain was left over |
| DecimalBalances.StoredPartialReleaseMovesColumns | src/inventory/inventory-ledger.service.ts:594-640 | for any quantity, a partial release adds the stored quantity to available and takes it from locked, less a grain exactly on a half |
| DecimalCoupling.StoredLeafCallCommits | src/inventory/inventory-ledger.service.ts:52-68 | for any quantities, the ledger call of an action on an open row finds the row's leaf under unused keys, commits, and rewrites that leaf alone |
| DecimalCoupling.StoredOpensOrChangesNothing | src/pledges/pledges.service.ts:449-478 | for any quantities, opening a row succeeds exactly if the ledger can hold, and otherwise changes nothing; rows and leaves stay one to one |
| DecimalApproval.LineEndsAttached | src/release-requests/release-requests.service.ts:419-456 | for any quantities, a line of an approval is carried out on its own leaf, answered from the log or refused without effect, and rows and leaves stay one to one |
| DecimalApproval.ReplayedLine | src/release-requests/release-requests.service.ts:424-445 | a partial line whose key an earlier, refused approval left on file writes nothing to the ledger: it fails or takes its quantity off its lien again |
| DecimalApproval.LineDrifts | src/release-requests/release-requests.service.ts:424-456 | the difference between a lien's leaf and what its row shows as remaining moves by the rounding of the line, by the whole line if it was answered from the log, and otherwise not at all |
| DecimalReachable.ActionEnds | src/release-requests/release-requests.service.ts:358-479 | for any quantities, every service call keeps rows and leaves one to one and each leaf at its row's weight but for the stated roundings |
| DecimalReachable.ReachableLeavesWeigh | src/pledges/pledges.service.ts:667-699 | after any admissible run with any quantities: a leaf is held iff an open row claims it, one to one; it weighs the rounded quantity of its row or, for a lien, what remains and the accumulated roundings of what was pledged and released, and agrees with its row exactly if those are nothing |
| DecimalBooks.ReachableBooksIffNothingUnbooked | src/release-requests/release-requests.service.ts:358-479 | after any admissible run with any quantities: a lien never force-released has quantity = remaining + approved lines + what refused approvals had already taken from it, which is never negative; its books hold if and only if that is nothing; pending requests ask of it at most what remains and that |
| DecimalEncumbrance.BucketsGainAGrainPerHalfSplit | src/pledges/pledges.service.ts:96-236 | after any run with any quantities: the buckets and the rest of a root weigh a grain more than it per split of its tree with half a grain over; they make it up exactly if there was none, and the three buckets alone exactly if the rest weighs those grains |
| DecimalEncumbrance.ReleasePendingWithinIffRoom | src/pledges/pledges.service.ts:180-236 | after any admissible run with any quantities: liened less release-pending is the sum, over the liened leaves, of what remains of the lien by its row and its roundings less the pending lines on the leaf; it stays within exactly if that sum is not negative |
| LineByLine.ApprovalStopsAtTheFirstUncoveredLine | src/release-requests/release-requests.service.ts:401-456 | whatever the leaves weigh, exactly the lines before the first one its leaf does not cover are carried out and stay so, and the request stays pending; if there is none, the approval goes through |
| LineByLine.BooksHoldUnlessStoppedHalfWay | src/release-requests/release-requests.service.ts:401-456 | an approval leaves the books of the liens in order if and only if its first uncovered line is the first of all or there is none |
| Scenarios.HalfAGrainIsCountedTwice | src/pledges/pledges.service.ts:449-478 | pledging 1.0005 of 10.000 leaves children of 1.001 and 9.000 under a split row of 10.000, and after acceptance a lien of 1.0005 |
| Scenarios.RoundedLeafFallsShort | src/release-requests/release-requests.service.ts:401-441 | under a lien of 1.0004 whose leaf weighs 1.000, a request for 1.0001 passes both row checks and the ledger refuses its approval |
| Scenarios.HalfAGrainIsNotLogged | src/inventory/inventory-ledger.service.ts:425-450 | a hold of 1.0005 of 10.000: the log says 8.999 are available, the tree has 9.000, nothing was handed back, and the buckets add up to 10.001 |
| Scenarios.PendingExceedsLiened | src/pledges/pledges.service.ts:180-236 | under a lien of 1.0004, all of it requested, 1.0004 are pending on a liened leaf of 1.000 |
| HalfWay.ApprovalStopsHalfWay | src/release-requests/release-requests.service.ts:401-456 | a run from the empty database with liens of 2.0000 and 1.0004 and a request for 1.0000 and 1.0001: the approval carries out the first line, is refused at the second, leaves the request pending and the first lien's books short |
| Scenarios.SeizureDefeatsReplay | src/inventory/inventory-ledger.service.ts:807-849 | deposit, approve, hold ten on a loan, seize four: replaying the log no longer gives the tree |
| Scenarios.PledgingIsAdmissible | src/pledges/pledges.service.ts:345-699 | deposit, approve, pledge, accept is an admissible run, for any quantities |
| Scenarios.SplitReceiptPassesTheChecks | src/pledges/pledges.service.ts:374-407 | after four of ten are pledged, a pledge of three of the same, by then SPLIT, receipt passes its checks and the ledger refuses it |
| Scenarios.StoppedApprovalsAreReached | src/release-requests/release-requests.service.ts:354-356 | with four under lien and an approval stopped after a line of one or two, the retry takes the line off again; after a line of three or four it is refused |
| Scenarios.RepeatedLinesAreReached | src/release-requests/release-requests.service.ts:122-189 | with four under lien, a request that asks for all four twice passes every check and its approval is refused |
| StorageFees.PeriodsAreSingleCeilings | src/storage-fees/storage-fees.service.ts:151-155 | weeks and months, ceilings of ceilings, are single ceilings over milliseconds |
| StorageFees.NestedCeilings | src/storage-fees/storage-fees.service.ts:151-155 | for all integers, negative ones too |
| StorageFees.FeeGrows | src/withdrawals/withdrawals.service.ts:855-863 | under one policy with a rate of at least zero, a later date or a larger quantity never costs less, so the fee at dispatch is at least the provisional one; a fee there is at all: a bag weight of zero, which is divided by, gives none |
| StorageFees.PerMtFeesAdd | src/storage-fees/storage-fees.service.ts:179-182 | fees per metric ton are additive when a quantity is split |
| StorageFees.PerBagFeesSubadd | src/storage-fees/storage-fees.service.ts:183-184 | fees per bag never fall when a quantity is split, and rise by at most one bag |
| StorageFees.FindNewest | src/storage-fees/storage-fees.service.ts:129-132 | the newest active policy of a scope |
| StorageFees.ResolvePolicy | src/storage-fees/storage-fees.service.ts:116-139 | a policy of the most specific scope that has an active one, the newest of them; none exactly if no scope has one |

## Left out

- UUIDs, clocks and dates: identifiers are positions or given, the time is a number the model is handed; deposit and expiry dates and grades are not modelled.
- Prisma, Postgres and row locks: a serializable transaction is an atomic step that may abort.
- Binary fractions: the Float columns of withdrawals, loans and trades, which can differ from the receipt's decimal, are integers here. Crashes, interleavings, reservations inside the payment window and the backfill are not modelled again over rounding columns. The backfill's match of a withdrawal to a gap, within 0.0005, is equality here.
- The order in which the database returns rows of one query: rows come in insertion order, backfilled roots in the order of their rows, stale pledges in any order.
- OTP, PIN and two-factor checks, onboarding of a financier, an existing fee policy and a permitted actor are booleans that refuse a call before anything changes; several distinct refusals of the source share one reason here.
- Notifications, activity logs, mail, files and other I/O with no effect on the tables.
- Interest, valuation and prices: of a loan or a trade only its status, buyer and receipt are kept.
- editWithdrawal, editLoan, deposit editing, listing, detail and dashboard queries: not modelled.
- Warehouse links and organisation status machines: not tied to liens by anything the code keeps.
- Controllers, modules, DTOs, guards and login: framework code.
- Services racing each other over one row: only the ledger's primitives are interleaved.
- LedgerService.InventoryLedgerService.RunIdempotent: does not retry or re-read after a lost race, because it runs alone; ExactlyOnce has those steps.
- LedgerService.InventoryLedgerService.TransferAndRelease: does not run the caller's own write inside its transaction; `RunIdempotent` says whether the call committed, and the settlement of a trade writes its row exactly then.
- Conservation.RunConserves: holds of quantities the columns store exactly; of others it fails exactly when Decimals.RunConservesIffNoHalfSplit says so.
- Recon.RunPassesEveryCheck: the same restriction; Decimals.LeavesGainAGrainPerHalfSplit says by how much a tree is off otherwise.
- LedgerInvariant.CallKeepsSound: the same restriction, for its conservation part; Decimals.CallGains says what a call adds otherwise, and Decimals.StoredCallKeepsFramed that lineage, status rules and sources are kept in any case.
- LedgerInvariant.RunIsSound: the same restriction.
- LedgerInvariant.PlanIsLawful: speaks of quantities before they are rounded; Decimals.SplitStores says what the stored parts weigh.
- LedgerInvariant.KeepsConservation: the same restriction as LedgerInvariant.CallKeepsSound.
- Replay.ReplayAgreesExactly: the same restriction; for all quantities DecimalReplay.ReplayAgreesIffNothingUntold.
- Replay.RunKeepsLogMatching: the same restriction, and the same lemma.
- Balances.BookIsConserved: the same restriction; for all quantities DecimalBalances.BookStaysIffNotHalf.
- Balances.CallMovesColumns: the same restriction; for all quantities DecimalBalances.StoredCallMovesColumns.
- Balances.HoldMovesColumns: the same restriction; for all quantities DecimalBalances.StoredHoldMovesColumns.
- Balances.ReleaseMovesColumns: the same restriction; for all quantities DecimalBalances.StoredPartialReleaseMovesColumns.
- Encumbrance.BucketsAndTheRestAddUp: the same restriction; for all quantities DecimalEncumbrance.BucketsGainAGrainPerHalfSplit.
- Encumbrance.ThreeBucketsIffNothingElse: the same restriction, and the same lemma.
- Encumbrance.ReleasePendingWithinLiened: the same restriction; for all quantities DecimalEncumbrance.ReleasePendingWithinIffRoom.
- Reachable.ReachableIsHealthy: the same restriction; for all quantities DecimalReachable.ReachableLeavesWeigh and DecimalBooks.ReachableBooksIffNothingUnbooked. The desk that deposits, approves, rejects and expires receipts does not call seize or transferOwnership, because no service does.
- Reachable.ActionKeepsHealthy: the same restriction; for all quantities DecimalReachable.ActionEnds.
- Reachable.ReachableCoupling: the same restriction; for all quantities DecimalReachable.ReachableLeavesWeigh.
- Reachable.ReachableLienBooks: the same restriction; for all quantities DecimalBooks.ReachableBooksIffNothingUnbooked.
- Reachable.PassedGuardsSucceed: the same restriction; otherwise an approval may be refused, LineByLine.ApprovalSucceedsIffLeavesCover.
- Reachable.ApprovingRequestKeepsHealthy: the same restriction, for the same reason.
- ApprovalLoop.ApprovalSucceedsIffDistinct: the same restriction; for all quantities LineByLine.ApprovalSucceedsIffLeavesCover, over distinct liens.
- Recon.VerifyAll: does not count rows without a root, because the root column is not nullable in the schema it runs against.
- Backfill.Phase1Backfill.Run: does not model cyclic parent chains, whose rows the recursive query never reaches.
