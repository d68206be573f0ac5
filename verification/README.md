# A verified model of the simulated exchange

This project models the parts of the trading simulator that work on integers and state, and proves what
they promise. Prices are integer cents, quantities whole shares, and every fee is an exact integer ceiling of
a rational rate.

**The finite-depth planner** (`ShareQueue`, `Liquidity`, `PlanWalk`, `Opening`, `Residue`, `Resumption`,
`PlanContract`, `FinitePlanner`, `Composition`, `Splits`, `Defaults`). The reference is a machine that serves one share at a
time from a price-ordered queue; an iceberg that has shown everything goes behind its price level. The planner's
loops, with their growing level queue, clocks and stamps, are proved against that machine, and so is the
detour through rows, new stamps and sorting when a plan is resumed from its own leftovers. Leftovers are always
a valid next input. That they queue as before is promised without conditions and is not always so: a row without
a sequence number is numbered by its position, and an iceberg without a display size is read back with another
one, so both may change when leftovers are read again. `ResumesExactlyWhen` gives the exact condition on request
and plan, the composition theorems hold under it, for any number of parts (`Splits`), and `Defaults` has a book for
each way in which it fails. The
clock of a revealed row ignores rows of the excluded account, which keeps the composition law, because the
excluded account is the same in both plans.

**The matching engine** (`QuoteBook`, `StampBlind`, `ChangeSteps`, `Reservations`, `Prunes`, `ExecutionSteps`,
`MatchingEngine`, and `AuctionBook`, `OpeningAuction`, `AuctionDesk` for the opening auction). Beside the engine
run two serial engines as ghost state: in one every open execution stands, in the other it is undone. Changes
reach them at once. The invariant ties the engine's books, with what waits, to both, up to time stamps and
sequence numbers. One finding: a prune only visits symbols that have a book, so it passes over a reserved
symbol whose first orders still wait. `PrunesStayInStepExactlyWhen` says exactly when that is harmless, and
`PruneComesTooEarly` runs an engine in which it is not, through to the release.

**The order-flow observer** (`OrderFlow`): a ring of the latest events with running sums, against the list of
all events of a stream.

**The laboratory**. The book (`LabMoney`, `LabState`, `LabFlow`, `LabFill`, `LabRest`, `LabSweep`, `LabRun`,
`LabSubmit`, `LabBook`, `LabView`) defines reservations as sums over resting orders, so the run-time reservation
check is dead code; every method also computes a function of the book before it. On these functions rests
`LabReplay`, the state that a tape leads to. The experiment (`Schedule`, `LabTape`, `LabCensus`, `LabConfig`,
`LabSession`, `LabExperiment`) writes a tape that the parser accepts and whose replay gives the same trades,
points, accounts and fee pool, and all policies write the same events until the execution window opens.

**Settlement** (`Money`, `Accounts`, `Lots`, `Settlement`, `SettlementSteps`, `Trades`, `SettlesWhen`, `Parties`,
`Holdings`, `Commands`, `Exposure`, `Funds`, `FundDesk`, `SafeAmounts`, `Compaction`, `GameWorld`, `NewWorld`, `LoanRun`, and
`OrderIndex` for the index of orders): double-entry cash, loans spread over lots, collateral, fund units, and an
engine that commits staged copies. One finding: a sale of leveraged shares may reach into cash that other orders
have reserved. `SaleSparesReservedCash` says exactly when it does not, `LoanRun` is a run from an empty world in
which it does, and `SettlesExactlyWhen` says when a validated trade settles at all.

**Two concurrent protocols** (`QuoteCache`, `CommandJournal`): state machines whose steps are one critical section
or one SQL statement each, over arbitrary interleavings, with crashes in the journal. One finding: a cache
with limit zero still ends up with one entry.

`Wrappers`, `Numbers` and `Sorting` hold optional values, arithmetic and the contract of a stable sort.

## Model

| member | source | states |
|---|---|---|
| ShareQueue.ServingComposes | backend/src/core/trading-engine/finite-execution.ts:374-441 | serving n shares and then m is serving n + m, icebergs included |
| ShareQueue.EveryLotIsConserved | backend/src/core/trading-engine/finite-execution.ts:374-441 | after any number of shares, what a lot has given plus what it still holds is what it had |
| ShareQueue.TapeIsMonotone | backend/src/core/trading-engine/finite-execution.ts:14-17 | prices only get worse along the shares served |
| ShareQueue.RequeueGoesBehindItsLevel | backend/src/core/trading-engine/finite-execution.ts:420-441 | a revealed lot stands behind its level and before every other price |
| ShareQueue.SliceIsShares | backend/src/core/trading-engine/finite-execution.ts:400-418 | a slice of n shares is n single shares, and leaves the queue that they leave |
| ShareQueue.ServingIgnoresNames | backend/src/core/trading-engine/finite-execution.ts:374-441 | who owns a lot does not influence the order of service |
| Liquidity.BuildRestingStates | backend/src/core/trading-engine/finite-execution.ts:197-236 | the loop returns the states of all rows, or the first complaint |
| Liquidity.BuildExternalStates | backend/src/core/trading-engine/finite-execution.ts:239-264 | the same for quotes |
| Liquidity.StatesCoverRows | backend/src/core/trading-engine/finite-execution.ts:197-236 | no row that shows shares is dropped |
| PlanWalk.RefillsShowAll | backend/src/core/trading-engine/finite-execution.ts:20-25 | an iceberg's refills are never empty and show exactly what was hidden |
| PlanWalk.RevealedIsLast | backend/src/core/trading-engine/finite-execution.ts:420-441 | the stamps of a revealed lot sort it behind everything still queued at its price and before every worse price |
| PlanWalk.StepPartial | backend/src/core/trading-engine/finite-execution.ts:391-419 | a request that runs out inside an item leaves rows, queue, stamps and trades in step with the share queue |
| PlanWalk.StepSpent | backend/src/core/trading-engine/finite-execution.ts:391-419 | so does an item that is used up |
| PlanWalk.StepReveal | backend/src/core/trading-engine/finite-execution.ts:415-441 | so does an iceberg that shows its next part, and its clock is never ahead of the clocks read |
| Opening.OpenedItems | backend/src/core/trading-engine/finite-execution.ts:336-372 | the sorted work list is strictly ordered, comes from the book, and misses and repeats nothing |
| Opening.OpensGood | backend/src/core/trading-engine/finite-execution.ts:331-373 | the walk starts in step with the share queue |
| Residue.SurvivorsReadBack | backend/src/core/trading-engine/finite-execution.ts:282-290 | whatever rows leave to defaults, the leftovers pass validation again, row by row, in their new order |
| Residue.OpenedOffers | backend/src/core/trading-engine/finite-execution.ts:336-372 | the queue offers every quote and every row that is not excluded in full, and nothing of excluded rows |
| Resumption.LeftoversOpen | backend/src/core/trading-engine/finite-execution.ts:282-290 | leftovers and reduced quotes are always a valid book |
| Resumption.MovedStaysStrict | backend/src/core/trading-engine/finite-execution.ts:266-272 | leftovers that keep their turns keep the order of everything still queued |
| Resumption.ReplansTheRest | backend/src/core/trading-engine/finite-execution.ts:19-28 | then the next planner run finds the queue at which the first one stopped, icebergs without a display size cut anew |
| Resumption.OwnersTellTurns | backend/src/core/trading-engine/finite-execution.ts:226 | and if the reopened queue has the same owners in the same places, the leftovers have kept their turns |
| Resumption.ExplicitStandsInTurn | backend/src/core/trading-engine/finite-execution.ts:226 | rows with sequence numbers of their own always keep them |
| PlanContract.LeftoversAccount | backend/src/core/trading-engine/finite-execution.ts:26-28 | row for row, visible plus hidden is what traded plus what survives, and nothing else of a row changes |
| PlanContract.LeftoversKeepExcluded | backend/src/core/trading-engine/finite-execution.ts:26-28 | rows of the excluded account survive untouched |
| PlanContract.LeftoversShowLots | backend/src/core/trading-engine/finite-execution.ts:282-290 | the eligible leftovers are the lots that still queue, with what they show and hide |
| PlanContract.LeftoversStayReplannable | backend/src/core/trading-engine/finite-execution.ts:447-461 | leftovers of a resumable book are resumable |
| PlanContract.LeftoversKeepStamps | backend/src/core/trading-engine/finite-execution.ts:274-279 | leftovers stand in book order, and no stamp is later than the latest clock of the input |
| FinitePlanner.HasFillableDepth | backend/src/core/trading-engine/finite-execution.ts:292-304 | true exactly when an eligible row or quote has quantity |
| FinitePlanner.ChargeItem | backend/src/core/trading-engine/finite-execution.ts:412-441 | charging the head item keeps every tie to the share queue |
| FinitePlanner.PrintSlice | backend/src/core/trading-engine/finite-execution.ts:391-413 | a slice takes as much as is wanted and there, names the right row, and fails only when the cost leaves safe integers |
| FinitePlanner.WalkLevel | backend/src/core/trading-engine/finite-execution.ts:390-441 | one growing level is served in order until the request, the level or the cap ends |
| FinitePlanner.WalkLevels | backend/src/core/trading-engine/finite-execution.ts:374-441 | if neither cap nor quantity stopped the walk, no eligible depth is left |
| FinitePlanner.PlanFiniteExecution | backend/src/core/trading-engine/finite-execution.ts:306-461 | the plan trades the first shares of the queue at their cost, as many as wanted and eligible unless capped; `truncated` exactly when quantity and eligible depth remain; leftovers account for every row, keep stamps unless an iceberg was revealed, are always a valid next input, and line up as the rest of the queue exactly when they keep their turns; it fails only for bad input or a notional that does not fit |
| Composition.PlanRespectsLimit | backend/src/core/trading-engine/finite-execution.ts:333-334 | every share is within the limit and prices never improve along a plan |
| Composition.LeftoversAreAdmitted | backend/src/core/trading-engine/finite-execution.ts:26-28 | a next request with the leftovers of any plan is accepted |
| Composition.ResumesExactlyWhen | backend/src/core/trading-engine/finite-execution.ts:19-25 | for every plan: the next run finds the very queue at which this one stopped if and only if no leftover loses its turn by a new default sequence number and no iceberg is cut differently by a new default display size |
| Composition.ContinuationServesTheCut | backend/src/core/trading-engine/finite-execution.ts:219-230 | without display sizes, the next run trades the next shares of that queue with its icebergs cut anew |
| Composition.ContinuationServesTheRest | backend/src/core/trading-engine/finite-execution.ts:19-25 | under that condition a plan on the leftovers trades the next shares of the first queue |
| Composition.PlanningComposes | backend/src/core/trading-engine/finite-execution.ts:19-25 | under that condition planning q1 and then q2 on the leftovers trades the same shares of the same rows in the same order, at the same total, and leaves the same rest, as planning q1 + q2 |
| Composition.CapsNeverReorder | backend/src/core/trading-engine/finite-execution.ts:29-32 | and with any slice caps a split plan and a single one differ only in how far they got |
| Splits.ChainServesTheQueue | backend/src/core/trading-engine/finite-execution.ts:19-25 | any number of plans, each on the leftovers of the one before and wherever caps stop them, serve the first queue from its head |
| Splits.SplitsCompose | backend/src/core/trading-engine/finite-execution.ts:19-25 | an order split into any number of parts trades the same shares of the same rows in the same order, at the same total, as in one plan |
| Splits.SplitsNeverReorder | backend/src/core/trading-engine/finite-execution.ts:29-32 | with any caps one of the two records begins with the other |
| Splits.ReplannableChains | backend/src/core/trading-engine/finite-execution.ts:20-28 | rows with sequence numbers and icebergs with display sizes meet the condition for every split |
| Defaults.DefaultDisplayReorders | backend/src/core/trading-engine/finite-execution.ts:219-230 | two icebergs without display sizes, and plans of one, four and five shares: one and then four are not the shares of five |
| Defaults.DefaultTurnReorders | backend/src/core/trading-engine/finite-execution.ts:226 | a row without a sequence number behind a quote, and plans of one, one and two shares: read back, the row overtakes the quote |
| AuctionBook.DepthAfter | backend/src/core/trading-engine/matching-engine.ts:516-571 | in a sorted side, serving n shares lowers the depth at every price by n, or to nothing |
| AuctionBook.HeadServed | backend/src/core/trading-engine/matching-engine.ts:522-530 | removing shares from the head of the queue by identity is serving the side |
| OpeningAuction.AuctionPriceIsUnique | backend/src/core/trading-engine/matching-engine.ts:508-515 | most volume, then nearest to the base, then lowest leaves one price |
| OpeningAuction.BestCandidateIsBest | backend/src/core/trading-engine/matching-engine.ts:489-515 | the best candidate is the best of every price in the band, quoted or not |
| OpeningAuction.LeftoverVolume | backend/src/core/trading-engine/matching-engine.ts:516-571 | at every price, in the band or not, the auction leaves the volume beyond what traded |
| OpeningAuction.NothingLeftInBand | backend/src/core/trading-engine/matching-engine.ts:474-575 | no price in the band would trade anything more |
| OpeningAuction.UncrossedExactlyWhen | backend/src/core/trading-engine/matching-engine.ts:474-575 | the book left is uncrossed if and only if no price outside the band would have traded more |
| OpeningAuction.RowsInBandUncross | backend/src/core/trading-engine/matching-engine.ts:474-575 | with all rows in the band the book left is uncrossed |
| OpeningAuction.OutOfBandStaysCrossed | backend/src/core/trading-engine/matching-engine.ts:490-495 | a concrete book above the limit that stays crossed |
| AuctionDesk.ChoosePrice | backend/src/core/trading-engine/matching-engine.ts:489-515 | the loop over ascending candidates finds the auction price |
| AuctionDesk.OpeningBook.ServeQueues | backend/src/core/trading-engine/matching-engine.ts:516-571 | the two-pointer loop trades exactly the executable volume, best rows first, in pairs of equal halves; each row loses what its fills say; a hook for each virtual half |
| AuctionDesk.OpeningBook.RunOpeningAuction | backend/src/core/trading-engine/matching-engine.ts:474-575 | the whole auction: the unique best price, that volume at it, or nothing and the previous close |
| QuoteCache.Cache.Begin | backend-go/internal/game/upstream.go:106-123 | the first critical section of a get: hit, join or load |
| QuoteCache.Cache.Finish | backend-go/internal/game/upstream.go:124-140 | the second section: publish, keep unless failed or overtaken, evict when full |
| QuoteCache.Cache.Invalidate | backend-go/internal/game/upstream.go:142-150 | drops the entry and unregisters and marks the load |
| QuoteCache.RunIsGood | backend-go/internal/game/upstream.go:95-150 | the invariant of every run of any number of concurrent calls |
| QuoteCache.NoStaleReads | backend-go/internal/game/upstream.go:106-150 | a get that begins after an invalidation never returns data of a load begun before it |
| QuoteCache.SingleFlight | backend-go/internal/game/upstream.go:113-123 | at most one load of a key is under way that was not invalidated |
| QuoteCache.RunsExtend | backend-go/internal/game/upstream.go:95-140 | a published outcome and a given answer never change |
| QuoteCache.FailuresAreNeverStored | backend-go/internal/game/upstream.go:95 | every entry is the answer of a load of that key that succeeded |
| QuoteCache.LimitHoldsExactlyWhen | backend-go/internal/game/upstream.go:129-137 | the store stays within its limit in every run if and only if the limit is at least one |
| CommandJournal.Ledger.Command | backend-go/internal/game/commands.go:143-213 | one call by itself: a recorded command changes and sends nothing, a new one is sent at most once, and an answer is the recorded result of the same command |
| CommandJournal.RunIsGood | backend-go/internal/game/commands.go:117-213 | the invariant of every run of concurrent, retried and crashing calls |
| CommandJournal.AtMostOneForward | backend-go/internal/game/commands.go:172-184 | each owner and key is sent upstream at most once |
| CommandJournal.RecordedIsNeverSentAgain | backend-go/internal/game/commands.go:164-182 | a call that starts when its command is on record, pending or not, sends nothing |
| CommandJournal.ResultIsTheReply | backend-go/internal/game/commands.go:184-211 | a recorded result is the reply to the one forward |
| CommandJournal.RecordsAreFinal | backend-go/internal/game/commands.go:172-210 | a recorded command keeps its body and a recorded result never changes |
| CommandJournal.SameKeySameAnswer | backend-go/internal/game/commands.go:117-142 | two answers under one key are to the same canonical command and are the same |
| CommandJournal.ReusedKeyIsRefused | backend-go/internal/game/commands.go:127-133 | in every run, a call whose command differs from the recorded one is given no result, holds no right to send, and has sent nothing |
| CommandJournal.ReusedKeyStaysRefused | backend-go/internal/game/commands.go:127-133 | and never will |
| CommandJournal.LostReplyStaysPending | backend-go/internal/game/commands.go:184-190 | a failed or lost reply leaves the command pending for good |
| QuoteCache.StepExtends | backend-go/internal/game/upstream.go:106-150 | no single step takes an outcome, an answer or an invalidation back |
| OrderFlow.EventIsTheDefinition | backend/src/core/trading-engine/order-flow.ts:1-15 | an event's flow is the published indicator formula |
| OrderFlow.EventsAreBounded | backend/src/core/trading-engine/order-flow.ts:28-36 | each event's flow is at most four mean depths in size, and depths are positive |
| OrderFlow.GapsMakeNoEvents | backend/src/core/trading-engine/order-flow.ts:17-22 | a gap in the quotes makes no event, and the next sample only sets the baseline |
| OrderFlow.FlowTelescopes | backend/src/core/trading-engine/order-flow.ts:14-15 | while both best prices stand, flow is the change in bid size less the change in ask size |
| OrderFlow.Observer.Push | backend/src/core/trading-engine/order-flow.ts:222-234 | the ring and its sums hold the last events of the list after one more |
| OrderFlow.Observer.Observe | backend/src/core/trading-engine/order-flow.ts:150-183 | the ring follows the list of events of the whole stream, gaps included |
| OrderFlow.Observer.SnapshotIsTheListsEnd | backend/src/core/trading-engine/order-flow.ts:236-249 | a snapshot reports the sums of the last events of the stream, and the ratio lies in [-4, 4] |
| StampBlind.SortPlaces | backend/src/core/trading-engine/matching-engine.ts:277 | a stable sort of an ordered list with one row out of place puts that row last among its equals |
| StampBlind.RemovalIsStampBlind | backend/src/core/trading-engine/matching-engine.ts:281-316 | a removal, with its re-stamped iceberg and its sort, sends that iceberg behind its level and changes no other order |
| StampBlind.ChangeIsStampBlind | backend/src/core/trading-engine/matching-engine.ts:258-362 | up to stamps, a change does the same to a book whenever it happens and whatever it is stamped with |
| ChangeSteps.RemoveRows | backend/src/core/trading-engine/matching-engine.ts:290-313 | the backward loop with its splices and its break removes what the recursive reading of it says |
| ChangeSteps.PruneRows | backend/src/core/trading-engine/matching-engine.ts:456-463 | the backward loop keeps exactly the rows that have not expired, in order |
| ChangeSteps.ApplyChange | backend/src/core/trading-engine/matching-engine.ts:258-466 | every deferred kind of change, carried out by the engine's loops |
| Reservations.DeliveryStaysInStep | backend/src/core/trading-engine/matching-engine.ts:89-94 | an arriving change, deferred or not, keeps the engine in step with both serial engines |
| Reservations.ReservationStaysInStep | backend/src/core/trading-engine/matching-engine.ts:168-186 | opening a reservation keeps it in step |
| Reservations.ClosingStaysInStep | backend/src/core/trading-engine/matching-engine.ts:108-124 | closing one leaves books from which the waiting changes lead to the serial engine's books |
| Reservations.ReleaseReachesSerial | backend/src/core/trading-engine/matching-engine.ts:108-124 | closing a reservation and delivering what waited reaches the books of the serial engine |
| Prunes.PruneStaysInStepExactlyWhen | backend/src/core/trading-engine/matching-engine.ts:451-455 | a prune keeps the engine in step with serial engines that prune if and only if the symbol has a book or nothing that waits for it has expired |
| Prunes.PrunesStayInStepExactlyWhen | backend/src/core/trading-engine/matching-engine.ts:451-466 | a whole prune keeps the engine in step with serial engines that prune all matching symbols if and only if nothing expired waits for a matching symbol without a book |
| Prunes.PruneComesTooEarly | backend/src/core/trading-engine/matching-engine.ts:451-455 | a symbol is reserved, an order waits, a prune passes over: after commit or rollback the engine shows an order that a serial engine has pruned |
| ExecutionSteps.LadderIsReduced | backend/src/core/trading-engine/matching-engine.ts:187-191 | the computed levels lose exactly what traded from them, so a continued plan would be given that ladder |
| ExecutionSteps.ExecutedIsStamped | backend/src/core/trading-engine/matching-engine.ts:180-186 | the planner's leftovers stay behind clock and counter, so later arrivals sort after them |
| ExecutionSteps.CarryOut | backend/src/core/trading-engine/matching-engine.ts:180-191 | both books give up what the plan took, and nothing else changes |
| MatchingEngine.Engine.Receive | backend/src/core/trading-engine/matching-engine.ts:258-279 | a change waits or happens, and both serial engines take it at once |
| MatchingEngine.Engine.ExecuteFinite | backend/src/core/trading-engine/matching-engine.ts:161-199 | no execution of a reserved symbol; a plan carried out at once with its hooks, or under a fresh handle with the old books kept |
| MatchingEngine.Engine.ReleaseExecution | backend/src/core/trading-engine/matching-engine.ts:108-126 | releasing computes the closing of the reservation and the delivery of all that waited, in order; then the books are those of the serial engine with or without the execution; hooks on commit only; a handle works once; other symbols untouched |
| MatchingEngine.Engine.PruneExpiredVirtualOrders | backend/src/core/trading-engine/matching-engine.ts:451-466 | every matching symbol that has a book is pruned, or has its prune deferred, and no other; beside serial engines that prune all matching symbols the engine is in step afterwards if and only if nothing expired waits for one without a book |
| LabMoney.FeeIsSubadditive | remaster/packages/engine/lab-book.ts:96-104 | splitting a fill never lowers the total fee |
| LabMoney.ReservationCoversFill | remaster/packages/engine/lab-book.ts:101-104 | the per-share reservation covers price and fee of any fill, so of any split |
| LabMoney.AffordableQuantity | remaster/packages/engine/lab-book.ts:463-475 | the binary search finds the largest quantity whose price plus fee fits |
| LabMoney.CashLimitedFillIsFinal | remaster/packages/engine/lab-book.ts:293-303 | after a fill that cash cut short not one more share is affordable at that price |
| LabSubmit.AffordableIsLargest | remaster/packages/engine/lab-book.ts:463-475 | the affordable quantity fits the cash, and nothing larger within the cap does |
| LabFill.FillKeepsValid | remaster/packages/engine/lab-book.ts:478-536 | a fill keeps reservations exact, accounts solvent, cash with fees and shares conserved, and the book ordered and uncrossed |
| LabRest.RestKeepsValid | remaster/packages/engine/lab-book.ts:331-346 | so does resting a remainder |
| LabRest.CancelKeepsValid | remaster/packages/engine/lab-book.ts:359-377 | so does a cancel |
| LabSweep.FillsFollowPriority | remaster/packages/engine/lab-book.ts:284-318 | shares are taken strictly from the front, each order but the last in full, none lost |
| LabRun.SweepStep | remaster/packages/engine/lab-book.ts:286-318 | one more fill extends the sweep, with exact trades and balances |
| LabRun.SweepEnds | remaster/packages/engine/lab-book.ts:286-318 | a sweep that stops by itself has taken everything within reach |
| LabBook.FiniteOrderBook.constructor | remaster/packages/engine/lab-book.ts:232-249 | a new book is valid, and is the opened book of the given accounts with nothing reserved |
| LabBook.FiniteOrderBook.ReservationCheckIsDead | remaster/packages/engine/lab-book.ts:576-586 | in a valid book the reservation check never throws |
| LabBook.FiniteOrderBook.ExecuteFill | remaster/packages/engine/lab-book.ts:478-536 | settles a fill against the best opposite order exactly |
| LabBook.FiniteOrderBook.TakeAsks | remaster/packages/engine/lab-book.ts:284-304 | a buy takes all it can reach, or stops where it cannot pay for one more share |
| LabBook.FiniteOrderBook.TakeBids | remaster/packages/engine/lab-book.ts:305-318 | a sale takes all it can reach |
| LabBook.FiniteOrderBook.Submit | remaster/packages/engine/lab-book.ts:251-357 | every event is refused for the first reason that applies and changes nothing, or is handled in full: a swept prefix, an exact remainder rested or cancelled, quantities adding up, the book valid; result and book, with order flow, are functions of event and book |
| LabBook.FiniteOrderBook.Cancel | remaster/packages/engine/lab-book.ts:359-377 | removes the caller's own resting order with its reservation, and otherwise nothing |
| LabBook.FiniteOrderBook.TakeAway | remaster/packages/engine/lab-book.ts:364-376 | takes an order out with its reservation and counts the change of the best quotes |
| LabView.Aggregate | remaster/packages/engine/lab-book.ts:562-574 | each level shows everything at its price, best first, and no better price is left out |
| LabView.BestIsFirstLevel | remaster/packages/engine/lab-book.ts:379-395 | the best quote and its size are the first level of the view |
| LabCensus.HandledCensus | remaster/packages/engine/lab-book.ts:251-357 | an order event adds at most one resting order |
| LabCensus.CancelCensus | remaster/packages/engine/lab-book.ts:359-377 | a cancel that finds its order removes exactly one |
| Schedule.TargetsGrow | remaster/packages/engine/lab.ts:187-203 | the targets never fall and end at the whole quantity |
| Schedule.WindowHasRoom | remaster/packages/engine/lab.ts:184-186 | every admissible session has a tick for each slice |
| Schedule.PlannedSlices | remaster/packages/engine/lab.ts:187-203 | distinct ticks within the window, no empty slice, the whole quantity, and the rounded target sent by the end of every interval |
| Schedule.NothingBeforeTheWindow | remaster/packages/engine/lab.ts:187-203 | no policy sends anything before the window opens |
| LabTape.ParserIsGrammar | remaster/packages/engine/lab.ts:249-285 | the parser's counters accept a list of events if and only if it is a sequence of well-formed ticks |
| LabTape.ParseTape | remaster/packages/engine/lab.ts:241-286 | accepts exactly the tapes within the limit: for each tick one fundamental and one public value in either order, then actions, then one sample |
| LabConfig.AccountsAreAcceptable | remaster/packages/engine/lab.ts:53-62 | the experiment's accounts are ones that the book accepts |
| LabSession.PoliciesAgreeBeforeTheWindow | remaster/packages/engine/lab.ts:184-223 | same configuration and draws: before the window opens any two policies have written the same tape and stand in the same state |
| LabSession.TapesShareTheirBeginning | remaster/packages/engine/lab.ts:184-223 | in the finished tapes every event before the window stands at the same place in both |
| LabSession.SessionsExtend | remaster/packages/engine/lab.ts:205-223 | later ticks only append, and only events of their own ticks |
| LabExperiment.Experiment.Apply | remaster/packages/engine/lab.ts:77-104 | an event is recorded and takes effect as one step of the replay |
| LabExperiment.Experiment.Sample | remaster/packages/engine/lab.ts:81-99 | a sample records the point that the book, the flow and the new trades give |
| LabExperiment.Experiment.CancelOld | remaster/packages/engine/lab.ts:108-111 | cancels the actor's orders of that age, each of which rests, and writes the events that the specification lists |
| LabExperiment.Experiment.Replenish | remaster/packages/engine/lab.ts:136-153 | a maker withdraws its quotes and places six, or waits, exactly as specified and within the tape's ranges |
| LabExperiment.Experiment.TradeNoise | remaster/packages/engine/lab.ts:154-173 | a noise trader adds at most one order, exactly the specified one |
| LabExperiment.Experiment.TradeInformed | remaster/packages/engine/lab.ts:174-182 | an informed trader adds at most one order, exactly the specified one |
| LabExperiment.Experiment.Generate | remaster/packages/engine/lab.ts:205-223 | the tape is the one specified for policy and draws, is well formed, has at most 18300 events because every cancel answers an order, and leads to the state in which the experiment ends |
| LabExperiment.ReplayTape | remaster/packages/engine/lab.ts:287-291 | accepts exactly the well-formed tapes, and reports what their replay leads to |
| LabExperiment.WriteAndRead | remaster/packages/engine/lab.ts:205-291 | for every configuration, policy and source of randomness the tape that is written is accepted, and its replay reports the same trades, points, accounts and fee pool |
| Money.ExchangeLosesWorth | remaster/packages/domain/money.ts:19-24 | a conversion never creates worth |
| Money.NoArbitrage | remaster/packages/domain/money.ts:19-24 | no chain of conversions back to its start returns more than was sent |
| Money.RoundTripCosts | remaster/packages/domain/money.ts:19-24 | and with at least one conversion it returns less |
| Accounts.PostingSum | remaster/packages/engine/world.ts:34-40 | what a posting does to each sum over accounts |
| Accounts.PairBalances | remaster/packages/engine/world.ts:38-39 | a posting's two halves cancel in its currency |
| Lots.TakeLots | remaster/packages/engine/settlement.ts:37-47 | the loop over lots removes shares first in, first out, with the proportional part of each loan |
| Lots.RemovalIsExact | remaster/packages/engine/settlement.ts:37-47 | shares and loans leave the lots exactly as reported, and no lot is left empty or in credit |
| Lots.RemovalSucceeds | remaster/packages/engine/settlement.ts:37-47 | what counts as sellable can be removed |
| SettlementSteps.PositionChanges | remaster/packages/engine/settlement.ts:48-66 | each kind of position change keeps the world sound and moves only the sums it should |
| Trades.SettledTradeKeepsWorld | remaster/packages/engine/settlement.ts:67-97 | a settled trade keeps every market's cash with collateral, the banks' books, net shares and the ledger's balance, and touches no third player |
| Trades.ReservedCashIsSafe | remaster/packages/engine/settlement.ts:19-36 | a buy, cover or short fill leaves the cash that the account's other live orders reserve |
| Trades.SaleSparesReservedCash | remaster/packages/engine/settlement.ts:54-56 | a sale leaves reserved cash alone if and only if the loan on the shares sold and the fee are at most proceeds and free cash |
| Trades.BorrowPoolHolds | remaster/packages/engine/settlement.ts:28-29 | total shorts in a symbol never pass the pool |
| Trades.BystandersKeepTheirCash | remaster/packages/engine/settlement.ts:6-15 | after a trade everyone else has the same account and the same free cash, unless an order of theirs is priced by the quote |
| SettlesWhen.SettlesExactlyWhen | remaster/packages/engine/settlement.ts:67-97 | away from the limits of safe integers a validated trade settles if and only if it is a short sale, or the seller's cash and proceeds cover loan and fee |
| GameWorld.SoundTradeSettlesExactlyWhen | remaster/packages/engine/settlement.ts:67-97 | and in every reachable world, where reservations are never negative, without further conditions |
| Parties.SettledAccounts | remaster/packages/engine/settlement.ts:48-91 | both parties' accounts after a trade, to the last field: lots, loan, short position, collateral, cash |
| LoanRun.SaleReachesReservedCash | remaster/packages/engine/settlement.ts:54-56 | a run from an empty world: shares bought on credit are sold for less, and a waiting order has then set aside more cash than there is |
| Holdings.SettledHoldings | remaster/packages/engine/settlement.ts:67-97 | buyer and seller move by the traded quantity in that symbol, and nobody else holds anything different |
| Commands.PayPositionsIsExact | remaster/packages/engine/engine.ts:36 | a repayment lowers the lots' loans by what was paid, or to nothing |
| Commands.RepayKeepsWorld | remaster/packages/engine/engine.ts:32-38 | a repayment keeps the world sound and every sum, and takes free cash only |
| Commands.TransferKeepsWorld | remaster/packages/engine/engine.ts:50-59 | a transfer keeps each market's value where it is and touches the owner's two accounts only |
| Exposure.LeverageKeepsWorld | remaster/packages/engine/engine.ts:39-43 | a new leverage is only granted where nothing is held or reserved, changes nothing else, and leaves all cash free |
| Exposure.ResetKeepsWorld | remaster/packages/engine/engine.ts:77-83 | a reset puts the account at its starting capital through the treasury, every sum unchanged |
| FundDesk.BuyKeepsWorld | remaster/packages/engine/engine.ts:60-69 | a fund purchase costs at most the amount given, out of free cash, and keeps the world sound and every sum |
| FundDesk.SellKeepsWorld | remaster/packages/engine/engine.ts:69-74 | a fund sale pays the proceeds, topping the reserve up from the treasury if need be, and keeps the world sound and every sum |
| FundDesk.FundRoundTripLoses | remaster/packages/engine/engine.ts:60-76 | whoever buys units and sells them at the same price, in one or many parts, has no more cash than before |
| Compaction.EndPieceIsGrouped | remaster/packages/engine/engine.ts:132-137 | a ledger cut between groups balances and can be cut again |
| Compaction.Compact | remaster/packages/engine/engine.ts:128-138 | the cut is the last one between groups that keeps 4000 entries |
| Compaction.TradeGroups | remaster/packages/engine/settlement.ts:77-96 | a settled trade writes whole groups |
| Funds.PurchaseFits | remaster/packages/engine/engine.ts:64-68 | a fund purchase never costs more than the amount given |
| Funds.SellingBackReturnsNoMore | remaster/packages/engine/engine.ts:64-74 | however units are sold off again at the same price, they return no more than was paid |
| GameWorld.SettleStaged | remaster/packages/engine/settlement.ts:67-97 | the staged steps, with the loop over lots, settle the trade that the specification settles |
| GameWorld.SoundAfterTrade | remaster/packages/engine/settlement.ts:67-97 | a settled trade keeps what every reachable world satisfies: sound accounts, conserved sums, a balanced ledger in groups, the borrow pool, solvency, and cash within the safe range |
| SafeAmounts.TradeIsSafe | remaster/packages/engine/settlement.ts:67-97 | a trade ends with all cash in the safe range, though a covered short frees collateral unchecked in between, and moves no fund units |
| SafeAmounts.DebtIsSafe | remaster/packages/engine/engine.ts:117-120 | no debt is larger than the safe range of one bank's cash |
| SafeAmounts.CollateralIsSafe | remaster/packages/engine/engine.ts:117-120 | no collateral is larger than six times that range, one for each house account |
| GameWorld.SoundPassesExactlyWhen | remaster/packages/engine/engine.ts:117-127 | a reachable world passes `assertWorld` if and only if fund holdings are still safe integers |
| GameWorld.TradePassesCheck | remaster/packages/engine/engine.ts:117-127 | a settled trade never makes `assertWorld` fail |
| GameWorld.Engine.constructor | remaster/packages/engine/world.ts:51-58 | a new world is sound and its sums are zero |
| GameWorld.Engine.Settle | remaster/packages/engine/settlement.ts:67-76 | all or nothing: an error changes nothing, success commits world and both orders |
| GameWorld.Engine.AddAccount | remaster/packages/engine/world.ts:42-47 | an account opens with capital from the treasury, or is refused exactly when the treasury cannot issue it; every sum unchanged |
| GameWorld.Engine.RepayLoan | remaster/packages/engine/engine.ts:32-38 | all or nothing, and the world stays sound |
| GameWorld.Engine.MoveCash | remaster/packages/engine/engine.ts:50-59 | all or nothing, refused exactly as specified, a season included, with the converted amount arriving |
| GameWorld.Engine.ChooseLeverage | remaster/packages/engine/engine.ts:39-43 | all or nothing, and the world stays sound |
| GameWorld.Engine.StartOver | remaster/packages/engine/engine.ts:77-83 | all or nothing, and the world stays sound |
| GameWorld.Engine.Subscribe | remaster/packages/engine/engine.ts:60-69 | all or nothing, refused exactly as specified: cash and units change by exactly cost with fee and units bought |
| GameWorld.Engine.Redeem | remaster/packages/engine/engine.ts:69-74 | all or nothing, refused exactly as specified: cash and units change by exactly proceeds and units sold |
| GameWorld.StockingKeepsSound | remaster/packages/engine/world.ts:66 | opening stock adds its shares to the sum of its symbol and moves no money |
| GameWorld.Engine.Stock | remaster/packages/engine/world.ts:66 | gives a maker its opening stock, the world staying sound |
| GameWorld.Engine.Withdraw | remaster/packages/engine/matching.ts:59-64 | refused for anybody but the owner, and while the auction is locked; a live order is cancelled, a closed one stays |
| NewWorld.OpenMarket | remaster/packages/engine/world.ts:64-69 | a market opens with its stocked maker and ten players, the other markets untouched |
| NewWorld.CreateWorld | remaster/packages/engine/world.ts:51-69 | the first world, reached through the engine's own steps: sound, quoted, every market stocked |
| GameWorld.Engine.CompactLedger | remaster/packages/engine/engine.ts:128-138 | compaction keeps the world sound, its ledger balanced |
| OrderIndex.World.Get | remaster/packages/engine/order-index.ts:4-10 | the index belongs to the current table and covers it, rebuilt if need be |
| OrderIndex.World.Place | remaster/packages/engine/matching.ts:49 | storing and registering an order keeps the index covering |
| OrderIndex.World.SymbolOrders | remaster/packages/engine/order-index.ts:12 | exactly the live orders of the symbol, none twice, through insertion, deletion and rebuild |
| OrderIndex.World.AccountOrders | remaster/packages/engine/order-index.ts:13 | exactly the live orders of the account |
| OrderIndex.SelectionIsUnique | remaster/packages/engine/order-index.ts:12-13 | two correct answers hold the same orders |

## Left out

- Types of raw input, NaN and infinities, and the exact keys of objects: inputs are typed values.
- Float effects: prices are taken in cents, fees and limits as exact fractions; `executionWindow` is exact here, so with doubles the end of the window can lie one tick earlier, which `Schedule.WindowHasRoom` leaves room for.
- Clocks and sequence numbers are exact reals; with doubles the increment at `finite-execution.ts` line 428 is idle from 2^53 on, and a revealed row could then tie with a quote.
- The planner's average price and the engine's slippage figures: quotients for display.
- Backwards steps of the wall clock: the engine's clock readings never decrease.
- Re-entrant virtual-fill hooks, promises and waiting callers: hooks are a log.
- Composition.PlanningComposes: where a leftover loses its turn or is cut anew, the plans may still happen to agree; what the second one trades then is given by `Composition.ContinuationServesTheCut` when only display sizes are missing.
- The auction's refusal while a symbol is reserved, hidden quantity in the auction, negative previous closes; entries carry a row number in place of object identity.
- The observer's limit of 4096 symbols: one symbol's observer is modelled.
- The laboratory book's quote callback is its one caller's: the book adds up order flow itself, and an experiment subtracts what it has sampled.
- The draws of an experiment are an arbitrary function of stream, tick and actor; the mixing function is not modelled. A point's imbalance is an exact quotient.
- Metrics, markouts, tape digests, exports and the comparison of the four policies.
- Settlement's trade log, candles, achievements, quote statistics and seasons (whether an account is in one is a parameter of resets and transfers); the net asset value of a fund is a parameter, so the size of fund holdings is not bounded; interest, dividends, margin calls and forced liquidation.
- GameWorld.Engine.Place: books any order with sane fields; the checks of `placeOrder` before booking, matching and expiry are not modelled.
- GameWorld.Engine.Withdraw: takes an order by its position; whether the auction is locked is a parameter.
- GameWorld.Engine.Settle: takes two different orders of the world with positive price and quantity, as the matching loop picks them.
- Deleting old closed orders, trades and events during compaction: they are in no sum.
- OrderIndex.World.Replace: takes a table that the current index was not built for; a clone's table is always a new object.
- Lots are values in a sequence, not shared objects: aliasing between a staged copy and the committed world is not modelled.
- The cache's wall clock is a parameter of each lookup; a load that never returns leaves its call open.
- CommandJournal.Ledger.Command: runs alone, so it never meets a row inserted between its read and its insert; the concurrent machine beside it does.
- Command routing, the upstream call and JSON are uninterpreted: `Lawful` says that canonical text is its own canonical text and that dropping blanks keeps it.
- Price, volume and news generation, calendars, backtests, AI parameters, HTTP, databases and front ends.
