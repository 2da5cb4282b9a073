# CherryPulse: a verified model

CherryPulse keeps an order simulator's whole state in an append-only journal of requests and
evidence.  Evidence arrives late, twice, out of order or in contradiction; processes crash between
commits; desired settings live in a second database.  This project models that machinery in Dafny
and proves what it is meant to guarantee, for every run.

How the model is built:

- **Journal and steps.** `Models` holds the values, `Steps` the journal as a transition system: each
  transaction commits a few steps, each under the guard its writer checked.  `Runs.Invariant` is
  everything that every allowed step keeps.
- **Transactions.** `LedgerSpec` and `DispatchSpec` say what each operation does to the committed
  journal and to the readiness of the lease.  The classes `Ledger`, `VirtualDispatcher`,
  `ConfigInbox`, `ConfigApplyCoordinator`, `SimplePortfolio` and `BacktestRunner` update their fields
  step by step, with the loops and the rollbacks of the source, and are proved to do exactly that.
- **Meaning.** `Meaning`, `Holdings` and `SliceProgress` say what the projections show in the journalled
  facts alone: the heaviest evidence, clashes, calls in doubt, what is left, what is calm.  `Admission`,
  `Correlation`, `Claims`, `StopFires`, `Assigned`, `Readiness`, `Decisions`, `CsvGrammar`, `ImportRules`
  and `Trading` then state of each operation exactly when it succeeds and what it commits.
- **Runs.** `Worlds` runs any operations in any order with crashes anywhere; `Refinement` shows that
  whatever the dispatcher does is such a run, and the classes promise it of their own fields;
  `Theorems` reads the invariant off every legal run, `Origins` finds the operation that brought each
  entry.  `TwoStores` does the same for two databases and any number of interrupted coordinators.

Main results: no symbol reserves more than it manages unless its evidence contradicts itself, and
that excuse is permanent (`NoOversell`, `SpoiledForGood`); for a truthful broker the gap of an order
is exactly what has not been delivered (`DeliveryInRuns`); projections ignore arrival order
(`PortfolioIgnoresArrival`); each request is called at most once over crashes, and in time
(`CalledAtMostOnce`, `CalledInTime`); after a crash nothing trades while one call is in doubt
(`NothingTradesInDoubt`); a quote latches a stop if and only if it reached the rule that protects the
shares (`QuoteFiresIff`), and every ingested buy fill under a bound revision is protected
(`FillsAreAssigned`); a run padded with duplicates ends where the run without them ends
(`DuplicatesAreIdle`); a setting marked applied is in the ledger, and resuming after any crashes
converges to the accepted chain (`AppliedMeansHeld`, `ResumingConverges`); the CSV reader inverts the
exporter exactly on the tables whose rows have text (`RoundTripIff`) and reads precisely the texts of
the CSV grammar (`ReadsIffGrammar`); the backtest neither makes nor loses money (`EveryStepAccounts`,
`ClosedOut`).

Three findings, each with its exact condition:

- An inbox row is looked up by command identifier alone while uniqueness is kept per account and
  environment.  Marking a command applied is sound if and only if no other row bears its identifier
  with another command; `SharedIdentifierExample` shows two accounts for which it is not.
- A draft whose address grows beyond 2048 characters when it is normalised is imported, but its own
  export is refused.  A second import is the identity if and only if no address has outgrown the limit
  (`SecondImport`); `SecondImportExample` is such a draft.
- Observations that tie on the highest version make an order's active quantity, its gap and its lifecycle
  depend on which arrived first.  An order reads the same in every arrival order if and only if it is
  void, was cancelled to zero, or its deciding observations agree (`OrderIgnoresArrivalIff`);
  `ArrivalDecides` shows two legal runs that differ.  The portfolio never depends on arrival.

Identifiers made by uuid4 are parameters that have not been used before; uuid5 is injective in its
arguments; SHA-256 does not collide; instants are whole microseconds; prices are exact reals.

## Model

| member | source | states |
|---|---|---|
| Projection.ComputePortfolio | execution/projection.py:263-332 | the single pass over the requests computes the symbol's managed, reserved, discrepancy and uncertainty as defined over all of them at once |
| Projection.CountRequest | execution/projection.py:286-319 | what one request adds to the four running values, branch by branch |
| Projection.LatestIsFirst | execution/projection.py:210-222 | the chosen observation is the first of those of the highest version |
| StopEvaluation.CostIsAMean | execution/projection.py:142-163 | a confirmed average cost lies between the lowest and highest price paid and covers exactly the managed shares |
| Outcomes.EvidenceMonotone | execution/outcomes.py:52-97 | whatever arrives later, transport never falls back, conflict, positive evidence, failure and rejection never clear, a confirmation stays, a settled effect is unsettled only by a conflict |
| Outcomes.GatherPermuted | execution/outcomes.py:52-97 | everything but the last boundary is independent of arrival order |
| Meaning.TransportIsHeaviest | execution/outcomes.py:52-97 | the transport shown is that of the heaviest evidence: boundary, failed send, rejection, answer |
| Meaning.ConflictIsClash | execution/outcomes.py:52-97 | a conflict is two facts that cannot both be true of one request |
| Meaning.UnresolvedMeans | execution/outcomes.py:30-44 | a request is unresolved exactly on a clash, a call in doubt, an execution out of nowhere, or an acknowledged change whose effect is open |
| Meaning.OrderMeans | execution/projection.py:188-260 | active is what the broker last said is left, the reservation what the quantities leave, and review is asked for exactly when the evidence contradicts itself |
| Meaning.OrderFlags | execution/projection.py:188-260 | acknowledged, rejected, failed, cancelled and link version in facts; when an order is void |
| Meaning.LifecycleMeans | execution/projection.py:43-57 | each stage of an order in facts and quantities, in the order in which they count |
| Meaning.CalmMeans | execution/projection.py:263-332 | no review is asked for exactly when every discrepancy and quarantine is closed, no request or order is contradicted and no sell is pending |
| Meaning.PositionMeans | execution/projection.py:73-79 | a calm symbol offers what it manages and has not reserved, any other nothing |
| Meaning.LatestControlDecides | execution/projection.py:320-322 | the latest control of a symbol decides, and without one nothing is stopped |
| Meaning.AppliedIsCurrent | execution/freshness.py:14-17 | the applied version is the highest of the symbol's revisions, 1 before any |
| Holdings.ManagedCounts | execution/projection.py:263-332 | managed shares are those to begin with, plus each executed buy, less each executed sell, counted once |
| Holdings.ReservedCounts | execution/projection.py:263-332 | reserved shares are what the sells that are not void may still take |
| QueryEvidence.CompleteIffPermutation | execution/query_evidence.py:18-27 | a finished, error-free query is complete exactly when its pages are a permutation of 1..expected |
| QueryEvidence.EvidenceCompleteIff | execution/query_evidence.py:44-59 | evidence is complete exactly when time did not run back, nothing was committed meanwhile and each of four sections came whole |
| Arrival.StatusPermuted | execution/outcomes.py:52-112 | no arrival order changes the verdict on a request |
| Arrival.OrderIgnoresArrival | execution/projection.py:188-260 | an order's projection is the same for every arrival order but for active and gap, and in those too without a tie of different remainders |
| ArrivalTies.OrderIgnoresArrivalIff | execution/projection.py:200-260 | an order reads the same in every arrival order of its facts if and only if it is void, was cancelled to zero, or the observations that decide (of the highest version, of the first kind present) agree on what remains |
| ArrivalTies.BroughtForwardIsActive | execution/projection.py:210-222 | a deciding observation that arrived before everything else sets the active quantity |
| Witnesses.ArrivalDecides | execution/projection.py:210-222 | two legal runs hold the same request and the same evidence in either order, and the order is active at 5 in the one and at 3 in the other |
| Arrival.PortfolioIgnoresArrival | execution/projection.py:263-332 | the whole portfolio is the same for every arrival order |
| Delivery.PartialDelivery | execution/projection.py:200-260 | for any part of a truthful broker history in any order: unless the order is void, active is the last delivered remainder and the gap exactly the undelivered quantity before it; review is required exactly on a request conflict or when a quantity-bearing event is missing; a sell that is not void reserves the true remainder plus everything missing |
| Delivery.NoDelivery | execution/projection.py:200-260 | before any event a sell that is not void reserves its whole quantity and only a request conflict is alarming |
| Delivery.FullDelivery | execution/projection.py:222-243 | a sell's reservation covers the broker's true remainder if and only if the order is not void or nothing remains |
| Delivery.LifecycleOfFullDelivery | execution/projection.py:43-57 | with the whole history in: REJECTED exactly on a rejection, else FILLED exactly when nothing is left and nothing was cancelled, CANCELLED exactly when a cancellation left nothing |
| ChangeSerialisation.ChangesFollowEvidenceKept | execution/validation.py:42-65 | every step keeps that an order with a change was accepted or executed |
| Theorems.ObservedIsNotVoid | execution/projection.py:206-227 | in every run an order with an observation is not void |
| Theorems.DeliveryInRuns | execution/projection.py:200-260 | in every run, whatever part of a truthful history arrived, the projection reads it exactly and a sell never reserves less than the broker's true remainder |
| Steps.WellFormedKept | execution/storage.py:230-235 | every step keeps identifiers and keys unique, changes bound to an order of their own symbol and side, and evidence matched to what it names |
| Steps.CheckedFactCorrelates | execution/validation.py:88-148 | evidence that passes its guard matches the accepted request or the order that it names |
| Oversell.ReservationFits | execution/projection.py:222-243 | a symbol whose sells carry no conflict and no negative exposure reserves between nothing and what it manages |
| Oversell.ArithmeticAlarmsAreContradictions | execution/projection.py:323-332 | the two arithmetic alarms never speak alone |
| Oversell.ExposureFalls | execution/projection.py:222-225 | no admitted fact ever raises an order's exposure |
| Oversell.CoverKept | execution/validation.py:29-39 | every step keeps the cover of every clean symbol |
| Theorems.NoOversell | execution/ledger.py:411-476 | in every run: the bound of a clean symbol, and review required exactly on a discrepancy, a contradicted order or an uncertain sell |
| Theorems.SpoiledForGood | execution/projection.py:222-243 | a symbol excused from the bound once is excused in every later state |
| ChangeSerialisation.SerialisedKept | execution/validation.py:42-74 | every step keeps one change of an order in flight, one confirmation per change, lowering amendments, and the count of link versions |
| Theorems.ChangesSerialise | execution/validation.py:95-125 | in every run: at most one change in flight per order, each confirmed at most once and never adding quantity, link version one more than the confirmed amendments |
| StopObligations.ComputeViews | execution/stop_obligations.py:59-141 | the two loops list the views of the symbol's slices, then the unpaired placeholders |
| StopObligations.PairedKept | execution/ledger.py:454-475 | every step keeps obligation records exactly the stop sells, one each, every one raised by a latch |
| StopObligations.OnlyOverfillIsInconsistent | execution/stop_obligations.py:69-103 | an obligation is read against its own request and order, and the records disagree only when more was filled than the slice holds |
| Theorems.ObligationsPair | execution/stop_obligations.py:37-56 | in every run: records and stop sells are one to one and no placeholder is ever shown |
| ConfigChain.ChainedKept | execution/ledger.py:292-392 | every step keeps versions increasing, one application per command, one revision per binding, and inbox revisions backed by their command |
| ConfigChain.AppliedIsHighest | execution/freshness.py:14-17 | the applied version of a symbol is the highest of its revisions |
| Theorems.VersionsAdvance | execution/ledger.py:292-392 | in every run: versions of a symbol strictly increase and every bound rule belongs to exactly one of them |
| Theorems.NoVersionConflict | execution/ledger.py:369-373 | in every run: the branch that reports an already bound version is never taken |
| Theorems.LatchIsFinal | execution/ledger.py:423-430 | in every run: a latch is permanent and the symbol's only one, no later buy of the symbol is created and none of its buys is claimed |
| Theorems.StopsStandOnEvidence | execution/ledger.py:497-533 | in every run: a latch names a bound rule of its kind, a price stop at or below its price, a cost stop at or below what the rule leaves of a price that some buy of the symbol paid; an assignment is of one buy fill, in full, to the rule of its order's revision, and no fill is assigned twice |
| Theorems.QuotesAdvance | execution/ledger.py:97-128 | in every run: accepted quotes of a symbol were received in strictly increasing and evaluated in non-decreasing order |
| Runs.TriggeredMeetsRule | execution/ledger.py:131-190 | a quote that triggers is at or below the bound price, or for a cost stop at or below the confirmed average cost of that journal less the agreed drop |
| Runs.LatchedMeetsRule | execution/ledger.py:778-887 | so is a quote that either direct latching path retains |
| StopEvaluation.SomeBuyPaidIt | execution/projection.py:142-163 | what holds of a confirmed average cost in proportion holds of a price that some buy paid |
| StopFires.HoldingsMean | execution/projection.py:98-139 | the confirmed holdings are the managed shares exactly when all were bought, every fill of them assigned to one bound rule |
| StopFires.CostMeans | execution/projection.py:142-163 | a protected symbol has a confirmed cost exactly when nothing was sold and every price is known, and it is the money paid over the shares managed; the two quantities always agree |
| StopFires.QuoteTakenIff | execution/ledger.py:97-128 | a quote is taken exactly in a reviewed session, when usable, later than any before and without a latch; it becomes the symbol's last one |
| StopFires.QuoteFiresIff | execution/ledger.py:605-653 | a taken quote latches exactly when shares may be sold and it reached the price, or the drop from the average price paid, of the one rule that protects them all; latch and answer name that rule and quote |
| StopFires.RetainedAnswers | execution/ledger.py:778-800 | a retained latch is the answer to later quotes and to the direct path of its kind, and nothing changes |
| StopFires.LatchFiresIff | execution/ledger.py:778-887 | the direct paths latch on the same condition, each for rules of its own kind, whatever the cursor |
| StopWitness.PriceStopFires | contracts/stop_evaluation.py:160-189 | a legal run in which ten shares are bought under a bound rule and a quote below its price latches it |
| Assigned.IngestAssigns | execution/ledger.py:482-534 | a new fill of a buy under a bound revision commits one assignment, in full, to that rule; any other fact none |
| Assigned.FillsAreAssigned | execution/ledger.py:482-534 | over runs: a fill has an assignment if and only if it was ingested while its buy's revision was bound, and then that one; a fill derived from quarantine has none |
| StopSignals.AcceptedQuotesAdvance | execution/ledger.py:605-653 | an accepted quote is later than every quote accepted in any earlier state |
| StopSignals.ReleasedOnce | execution/linkage.py:51-60 | a release has its source, is the only one, and its derived fill has the source's quantity |
| StopSignals.QuarantineBlocks | execution/projection.py:276-284 | until its release a quarantined fill leaves nothing available and admits no new order of the symbol |
| Theorems.DiscrepanciesCloseOnce | execution/validation.py:167-202 | in every run: a closed discrepancy is one of the same symbol, closed once, on complete evidence of the quantity and revision it was closed at |
| Reconciliation.ClosureSettles | execution/validation.py:167-202 | closing a discrepancy finds and leaves the symbol at the observed quantity, with no contradicted order, and review remains exactly for what is still unexplained or uncertain |
| Theorems.QuarantineCountsOnce | execution/quarantine.py:13-46 | in every run: exactly one source, one release and one derived fill of the same quantity |
| Worlds.RunIsGood | execution/ledger.py:239-961 | any operations in any order with crashes anywhere keep the whole invariant, lose no entry, move no cursor back |
| Runs.InvariantKept | execution/storage.py:230-235 | every allowed step keeps the whole invariant |
| Origins.FactOrigin | execution/storage.py:230-235 | each fact of a run was brought by one of its operations: ingested, retired, reprocessed, claimed or recovered |
| Readiness.ApprovedIff | execution/ledger.py:942-961 | a review opens the session exactly when it is of the current revision, every request is accounted for and no symbol whatever waits for an explanation |
| Readiness.OpensOnlyAtRest | execution/ledger.py:942-961 | in every run a session opens by such a review only |
| Readiness.NothingTradesInDoubt | execution/ledger.py:942-961 | after a crash, while one call is in doubt: no approval, no request and no call, over any run |
| Readiness.ReviewsAreCurrent | execution/ledger.py:536-559 | a review, a retirement or a release decided on an earlier state passes only if nothing was committed since |
| Deadlines.MadeInTime | execution/freshness.py:20-27 | over runs each request was made in a reviewed session, before its deadline, under the current revision and with its other guards met |
| Deadlines.CalledInTime | execution/virtual.py:38-95 | so was the claim of each call, crashes included |
| Deadlines.SendingInTime | execution/virtual.py:86-95 | a SENDING fact not brought in from outside is such a claim |
| Admission.SubmitTakenIff | execution/ledger.py:411-476 | a command under a new key is taken exactly when reviewed, in time, current, linked and placeable or changeable; what is then journalled |
| Admission.RefusedAs | execution/ledger.py:411-476 | why a new order is refused: the first failing guard, in order |
| Admission.KnownKeyAnswers | execution/ledger.py:416-420 | a known key is answered with its request, or refused for another command |
| Admission.ControlTakenIff | execution/ledger.py:281-290 | a control is taken in a reviewed session and is then the one that counts for its symbol, and for no other |
| Admission.AllocationTakenIff | execution/ledger.py:258-279 | new holdings are taken in a reviewed session before the symbol's first order |
| Admission.RevisionTakenIff | execution/ledger.py:292-330 | a revision is taken exactly when it follows the current one and goes beyond it, and is current then |
| Admission.SettingTakenIff | execution/ledger.py:332-392 | a desired setting is taken exactly when it is of the lease, of its own digest, and follows what it expects; a held one is recognised |
| Controls.StoppedBuysNothing | execution/validation.py:29-35 | until the next control a stopped symbol gains no buy and none of its buys is claimed, over any run; a control is never lost |
| Correlation.EvidenceTakenIff | execution/validation.py:88-212 | for each kind of evidence, exactly when it is taken |
| Correlation.KnownEventAnswers | execution/ledger.py:482-490 | evidence seen before is taken once, other content under its identifier refused |
| Correlation.EffectIs | execution/outcomes.py:52-97 | of a change: confirmed, else refused, else unknown, else pending, in facts |
| Correlation.LinkedIff | execution/linkage.py:10-49 | a quarantined execution is linked exactly when its broker number leads to one order of its symbol |
| Correlation.DiscardedIff | execution/ledger.py:536-559 | an intention is retired exactly when reviewed at the current revision and never heard of |
| Correlation.ReleasedIff | execution/quarantine.py:13-46 | a quarantine is released exactly when linked, unreleased, reviewed at the current revision and its fill there or possible |
| Claims.ClaimedIff | execution/virtual.py:38-95 | exactly when a request is claimed, and that the claim is one SENDING fact |
| Claims.SendCallsIff | execution/virtual.py:31-101 | a send calls exactly then, once, and journals SENDING and SENT |
| Claims.DrainsIff | execution/virtual.py:103-155 | a drain intends to sell exactly when a reviewed, latched symbol has shares under the latch's rule and nothing speaks against it; then all that is unreserved |
| SliceProgress.SliceMeans | execution/stop_obligations.py:59-141 | every slice is blocked exactly while its symbol is not calm; else fulfilled, under review or pending by its executions and refusals, and one that is over reserves nothing |
| SliceProgress.LastRefusalSpeaks | execution/stop_obligations.py:59-141 | the last refusal gives the reason |
| Dispatch.CalledAtMostOnce | execution/virtual.py:31-101 | over every run with crashes and restarts: no request is called twice, each call had its SENDING fact committed before, no called request is proven uncalled |
| Dispatch.BoundaryBlocksProof | execution/validation.py:151-164 | a claimed request can no longer be proven uninvoked |
| Dispatch.RecoveryKeepsQuantities | execution/virtual.py:167-188 | recovery leaves the same requests unresolved and every managed and reserved quantity unchanged |
| RecoveryMarks.RecoveryMarksEach | execution/virtual.py:167-188 | each accepted request not accounted for gets one boundary, UNKNOWN if its call was cut short and else RECONCILING; the others get none |
| RecoveryMarks.NothingLeftSending | execution/virtual.py:167-188 | after a recovery no call stands as being sent or as sent |
| RecoveryMarks.RecoveryNames | execution/virtual.py:167-188 | what is returned are the accepted requests not accounted for |
| Dispatch.TransportsKeepView | execution/projection.py:188-260 | boundary evidence leaves an order's projection exactly as it was |
| Replay.RepeatLater | execution/ledger.py:411-420 | a successful demand repeated at the end of any later run leaves the world of that run |
| Replay.DuplicatesAreIdle | execution/ledger.py:482-490 | a run padded with duplicates of earlier successes ends in the world of the run without them |
| Replay.RepeatIsIdle | execution/quarantine.py:24-30 | a remembered demand made again, at another time or revision, changes nothing |
| Drain.DrainCovers | execution/virtual.py:103-155 | a drain that intends anything creates, claims, calls, records and acknowledges one request, after which the symbol is reserved to its last share |
| Drain.DrainsOnce | execution/virtual.py:103-155 | a drain that follows at once returns nothing and changes nothing |
| Idleness.DrainedStaysIdle | execution/virtual.py:103-155 | after a drain that acted and any legal run without evidence about quantities (crashes, claims, submissions, configurations, controls included) every drain of the symbol returns nothing and changes nothing |
| Idleness.StepKeepsFull | execution/ledger.py:411-476 | a symbol reserved to its last share stays so under every step but one that brings evidence about quantities |
| PlacementKeys.DrainActsIff | execution/virtual.py:103-155 | a drain makes a request if and only if it intends one and its key is new |
| PlacementKeys.TakenKey | execution/ledger.py:416-420 | placing under a taken key makes no request: another command's key is refused, the command's own request is at most sent and acknowledged |
| PlacementKeys.DrainActsInRuns | execution/virtual.py:136-147 | in every run whose stop sells come from drains a drain that intends anything acts, its key being new |
| Liquidation.LiquidationCovers | execution/virtual.py:190-215 | a liquidation that may act places one acknowledged sell that reserves the symbol to its last share |
| Liquidation.LiquidatesOnce | execution/virtual.py:190-215 | a liquidation that follows at once has nothing to do |
| Idleness.LiquidatedStaysIdle | execution/virtual.py:190-215 | nor has one after any legal run without evidence about quantities |
| PlacementKeys.LiquidatesIff | execution/virtual.py:190-215 | a liquidation makes a request if and only if the session is reviewed, shares are available, no sell failed, the configuration is that of the snapshot and the key is new |
| PlacementKeys.LiquidatingKeepsConfigs | execution/virtual.py:190-215 | within one processing the configuration stays that of its beginning |
| Processing.AcknowledgementsDiffer | execution/virtual.py:157-165 | each virtual acknowledgement bears a broker number of its own request |
| Processing.LiquidationDuty | execution/virtual.py:190-215 | a liquidation may act exactly when the symbol is liquidating, has shares to sell, no refused sell, the seen revision and a new key |
| Processing.ProcessFinishes | execution/virtual.py:190-215 | processing a fact goes through for the whole list and leaves none of its symbols with anything to liquidate |
| Refinement.DrainIsRun | execution/virtual.py:103-155 | a drain is a run of the transition system |
| Refinement.ProcessIsRun | execution/virtual.py:190-215 | processing a fact with all its liquidations is a run of the transition system |
| Refinement.SendIsRun | execution/virtual.py:31-101 | a send is a run of the transition system |
| Refinement.RunsStayGood | execution/virtual.py:18-215 | hence whatever the dispatcher does keeps the whole invariant |
| Refinement.RecoverIsRun | execution/virtual.py:167-188 | recovery is a run of the transition system |
| Ownership.AccountLease.RequireReady | execution/ownership.py:75-79 | refuses without the lock, then without a review |
| Ownership.AccountLease.BindDatabase | execution/ownership.py:67-73 | a lease serves one database only |
| Ownership.AccountLease.ApproveVirtualReview | execution/ownership.py:81-84 | opens the gate of a held lease |
| Ownership.AccountLease.Retire | execution/ownership.py:86-90 | ends ownership and readiness |
| LedgerFacade.Ledger.Allocate | execution/ledger.py:258-279 | initial ownership once, before any order; the exact repeat succeeds unreviewed |
| LedgerFacade.Ledger.SetControl | execution/ledger.py:281-290 | a control is appended in a reviewed session |
| LedgerFacade.Ledger.ApplyConfig | execution/ledger.py:292-305 | compare and advance the symbol's revision |
| LedgerFacade.Ledger.ApplyStopConfig | execution/ledger.py:307-330 | the revision and its stop rule are committed together |
| LedgerFacade.Ledger.ApplyInboxConfig | execution/ledger.py:332-392 | scope, digest, identity and version are checked in this order; command, revision and rule are committed together, an exact repeat returns the first |
| LedgerFacade.Ledger.Submit | execution/ledger.py:411-476 | the replay search decides before any guard; request and obligation are committed together (when, `Admission.SubmitTakenIff`) |
| LedgerFacade.Ledger.Ingest | execution/ledger.py:482-534 | the fact and its stop assignment are committed together, once per identifier (when, `Correlation.EvidenceTakenIff`; which, `Assigned.IngestAssigns`) |
| LedgerFacade.Ledger.Discard | execution/ledger.py:536-559 | retires an uncalled intention at the reviewed revision |
| LedgerFacade.Ledger.Reprocess | execution/quarantine.py:13-46 | derived fill and release are committed together; a refused release takes the fill back |
| LedgerFacade.Ledger.ProcessVirtualStopQuote | execution/ledger.py:605-653 | cursor and latch move together, or nothing does (when, `StopFires.QuoteFiresIff`) |
| LedgerFacade.Ledger.LatchVirtualStop | execution/ledger.py:778-887 | both direct latching paths; the cursor does not move (when, `StopFires.LatchFiresIff`) |
| LedgerFacade.Ledger.ApproveVirtualReconciliation | execution/ledger.py:942-961 | opens the session exactly when the reviewed revision is current and nothing is unresolved (`Readiness.ApprovedIff`) |
| Dispatcher.VirtualDispatcher.ClaimRequest | execution/virtual.py:38-95 | the guards before a call, in order, then the committed SENDING fact (when, `Claims.ClaimedIff`) |
| Dispatcher.VirtualDispatcher.Send | execution/virtual.py:31-101 | claim, call, then the SENT fact |
| Dispatcher.VirtualDispatcher.DrainVirtualStop | execution/virtual.py:103-155 | submits, sends and acknowledges what the latch still has to sell |
| Dispatcher.VirtualDispatcher.Acknowledge | execution/virtual.py:157-165 | ingests the virtual acknowledgement |
| Dispatcher.VirtualDispatcher.Recover | execution/virtual.py:167-188 | one boundary fact per unresolved request, judged by the journal as found, and their identifiers in order |
| Dispatcher.VirtualDispatcher.Process | execution/virtual.py:190-215 | ingests, then liquidates symbol by symbol up to the first error |
| InboxStore.ConfigInbox.ReceiveCommand | contracts/inbox.py:95-185 | authentication, scope, identity and decision in this order; one row per new command; the accepted chain stays a chain |
| InboxStore.ConfigInbox.Begin | contracts/inbox.py:187-234 | enters APPLYING unless done, in progress or blocked without a retry; desired data untouched |
| InboxStore.ConfigInbox.Block | contracts/inbox.py:257-290 | records a refused application of a row in progress; desired data untouched |
| InboxStore.ConfigInbox.Mark | contracts/inbox.py:292-334 | records an application whose digest and version match; desired data untouched |
| InboxStore.ConfigInbox.UpdateRows | contracts/inbox.py:222-227 | updates every row that bears the identifier and no other |
| Coordinator.ConfigApplyCoordinator.ApplyCommand | execution/config_apply.py:32-61 | begin, ledger, then block or mark; rows marked applied stay held by the ledger |
| Coordinator.ConfigApplyCoordinator.ResumeApplying | execution/config_apply.py:63-67 | applies the rows in flight in arrival order |
| Coordinator.ConfigApplyCoordinator.ResumeAllPending | execution/config_apply.py:69-76 | applies everything pending in accepted-version order; from a sound state without blocked rows it succeeds and settles the lease |
| Decisions.AcceptedIff | contracts/inbox.py:95-185 | a new command is recorded exactly when somebody authentic may write it, and accepted exactly when in time and beyond the highest accepted version, which it names |
| Decisions.RepeatIsAnswered | contracts/inbox.py:144-159 | a received command is answered as it was then, whatever the time, and recorded no more |
| Decisions.RunsKeepIdentities | contracts/inbox.py:144-159 | in every run no two rows of an account share an identifier, nor a symbol's key |
| Decisions.BeginsIff | contracts/inbox.py:187-234 | exactly which row is taken up |
| Decisions.BlocksIff | contracts/inbox.py:257-290 | exactly which row is blocked |
| Decisions.MarksIff | contracts/inbox.py:292-334 | exactly which row is marked |
| Decisions.AppliesOrBlocks | execution/config_apply.py:32-61 | an application ends applied when the ledger takes the setting, else blocked for the ledger's reason |
| Decisions.ApplyingAre | contracts/inbox.py:236-244 | the rows in flight are listed in arrival order |
| TwoStores.AppliedMeansHeld | execution/config_apply.py:32-61 | in every run with crashes between the commits and any coordinators: a row marked applied is accepted, reports its own version, and the ledger holds that command identifier, digest, version and rule |
| TwoStores.NextIsSafe | contracts/inbox.py:292-334 | every commit of either store keeps this |
| AcceptedChain.Predecessor | contracts/settings.py:123-151 | an accepted command expects the highest accepted version below its own, and no two share a version |
| AcceptedChain.LedgerTakes | execution/ledger.py:193-236 | once everything before it is in the ledger, a command is taken, or recognised down to its rule |
| AcceptedChain.TakenIsNext | execution/ledger.py:224-236 | a revision the ledger takes from the inbox skips none |
| Convergence.AcceptedVersionsChain | contracts/inbox.py:160-185 | in every run the accepted versions of a setting form a chain from expected to version |
| Convergence.ApplyRow | execution/config_apply.py:32-61 | an application whose predecessors are in the ledger completes, whichever commits a crash had already let through |
| Resumption.PendingAre | contracts/inbox.py:246-255 | the pending list is a rearrangement of the pending rows in version order |
| Resumption.ResumptionSettles | execution/config_apply.py:69-76 | resuming succeeds and leaves every accepted command of the lease applied |
| Resumption.ResumingConverges | execution/config_apply.py:69-76 | after any run configured from the inbox only, with any crashes, retries and concurrent coordinators, and nothing blocked: resuming succeeds, every accepted command is applied and held, and each symbol's ledger versions are its accepted chain |
| Resumption.RetryingConverges | execution/config_apply.py:32-61 | after any such run whatever stands blocked: applying with an explicit retry in accepted-version order converges just so |
| SharedIdentifiers.MarkingIsSafeIff | contracts/inbox.py:292-334 | marking is sound exactly when no other row bears the identifier with another command |
| SharedIdentifiers.SharedIdentifierExample | contracts/inbox.py:319-326 | after a legal run that applied the first account's command, marking it marks a second account's row of the same identifier at a version that is not its own and that the ledger does not hold |
| CsvFormat.ParseCsv | web/board/draft-import.js:22-71 | the character loop reads what the state machine reads (which is the grammar, `CsvGrammar.ReadsIffGrammar`) |
| CsvFormat.ReadBack | web/board/draft-import.js:164-174 | reading what was written returns the cells of every row that has text |
| CsvFormat.RoundTripIff | web/board/draft-import.js:22-71 | the round trip is exact precisely when every row has some text |
| CsvGrammar.GrammarReads | web/board/draft-import.js:22-71 | any file of the grammar, cells quoted at will, any mix of LF, CR and CRLF, the last left out or not, reads as its rows that have text |
| CsvGrammar.ReadsIffGrammar | web/board/draft-import.js:22-71 | a text is read if and only if it is in the grammar |
| CsvGrammar.TextAfterQuoteRefused | web/board/draft-import.js:44-46 | text after a closing quote is refused |
| CsvGrammar.QuoteInsideRefused | web/board/draft-import.js:47-49 | a quote inside an unquoted cell is refused |
| CsvGrammar.UnclosedRefused | web/board/draft-import.js:65 | an unclosed quote is refused |
| ImportRules.FileReadIff | web/board/draft-import.js:108-123 | a file gives records exactly when its rows that have text are a table under headers of the board; each record holds under each header the cell below it |
| ImportRules.ImportedIff | web/board/draft-import.js:87-106 | an import succeeds exactly when every record is acceptable and no code repeats or exists; each record yields its draft |
| ImportRules.ExportReadsBack | web/board/draft-import.js:153-174 | an export reads as the header and the cells of each symbol not archived, in order |
| DraftImport.ImportRecords | web/board/draft-import.js:142-150 | the loop keeps the drafts before the first invalid or repeated record |
| DraftImport.ImportIsCanonical | web/board/draft-import.js:87-106 | an import yields trimmed drafts in bounds with codes of their own |
| DraftImport.ExportReads | web/board/draft-import.js:108-123 | an exported file reads back as one record per draft |
| DraftImport.SecondImport | web/board/draft-import.js:73-85 | importing one's own export is the identity exactly when no normalised address exceeds the importer's limit |
| DraftImport.SecondImportExample | web/board/draft-import.js:73-85 | a file that is imported and whose own export is refused |
| RestEvidence.ConfirmedIff | adapters/kiwoom_rest_evidence.py:111-136 | a batch is confirmed exactly when it has distinct consistent queries of one scope, clear pair by pair, and one revision throughout |
| RestEvidence.CoverageIff | adapters/kiwoom_rest_evidence.py:105-136 | exactly which queries leave no section missing |
| RestEvidence.NeighboursSettleAll | adapters/kiwoom_rest_evidence.py:122-128 | checking neighbours in start order settles every pair |
| RestEvidence.ConfirmedIsDisjoint | adapters/kiwoom_rest_evidence.py:58-69 | no two intervals of a confirmed batch overlap |
| Backtest.EveryStepAccounts | back/legacy-2026-09-13/backtest/runner.py:106-127 | after every tick of any list under any strategy, cash plus the cost of the holdings is the initial cash plus the realised profit, the sum of the logged profits |
| Backtest.BoughtConserves | back/legacy-2026-09-13/backtest/runner.py:55-68 | a purchase moves cash into cost |
| Backtest.SoldConserves | back/legacy-2026-09-13/backtest/runner.py:70-87 | a sale moves exactly its profit into the realised profit |
| Trading.BuysIff | back/legacy-2026-09-13/backtest/runner.py:55-68 | a purchase goes through exactly when the cash covers it; shares, cost and cash then |
| Trading.SellsWhatItCan | back/legacy-2026-09-13/backtest/runner.py:70-87 | a sale takes what was asked, at most what is held, at its price |
| Trading.ExitSellsAll | back/legacy-2026-09-13/backtest/runner.py:206-224 | a full sale leaves nothing and logs one trade with its profit |
| Trading.ExitSellsPart | back/legacy-2026-09-13/backtest/runner.py:189-204 | a partial sale takes the ratio rounded down, one share at least, and logs it with its profit |
| Trading.ExitKeeps | back/legacy-2026-09-13/backtest/runner.py:162-187 | a position not open or kept is left alone |
| Trading.BestReturnKept | back/legacy-2026-09-13/backtest/runner.py:162-171 | the best return is the higher of the one so far and the present one |
| Trading.EntryObeyed | back/legacy-2026-09-13/backtest/runner.py:138-160 | an entry buys when covered and notes the average price |
| Trading.LeavesBeforeEntering | back/legacy-2026-09-13/backtest/runner.py:117-123 | on one tick the old position is left before a new one is entered |
| Trading.StepRecords | back/legacy-2026-09-13/backtest/runner.py:117-126 | after each tick: its price is known and the equity explained |
| Trading.CloseObeyed | back/legacy-2026-09-13/backtest/runner.py:226-255 | the forced close sells a position whole at its last tick's price |
| Backtest.EquityIsExplained | back/legacy-2026-09-13/backtest/runner.py:48-53 | recorded equity is the initial cash, the logged profit and the open gain |
| Backtest.ClosedOut | back/legacy-2026-09-13/backtest/runner.py:226-255 | after the forced close nothing is held and the cash gained is the sum of the logged profits |
| Runner.SimplePortfolio.GetPosition | back/legacy-2026-09-13/backtest/runner.py:43-46 | an untouched symbol gets an empty position of its own, after all earlier ones |
| Runner.SimplePortfolio.Buy | back/legacy-2026-09-13/backtest/runner.py:55-68 | refuses what cash does not cover; otherwise averages the price in place |
| Runner.SimplePortfolio.Sell | back/legacy-2026-09-13/backtest/runner.py:70-87 | sells at most what is held and returns the profit; a position sold out forgets its past |
| Runner.SimplePortfolio.ValueAt | back/legacy-2026-09-13/backtest/runner.py:48-53 | the loop sums cash and open positions, unpriced ones at cost |
| Runner.BacktestRunner.CheckEntry | back/legacy-2026-09-13/backtest/runner.py:138-160 | buys and logs the entry price |
| Runner.BacktestRunner.CheckExit | back/legacy-2026-09-13/backtest/runner.py:162-224 | follows the best return and obeys the exit answer |
| Runner.BacktestRunner.ForceCloseAll | back/legacy-2026-09-13/backtest/runner.py:226-255 | closes the open positions in the order in which they were opened |
| Runner.BacktestRunner.Play | back/legacy-2026-09-13/backtest/runner.py:106-136 | plays the ticks, closes, and returns the final cash, which exceeds the initial cash by exactly the logged profits, with nothing held |

## Left out

- SQLite, schema migration, the outbox copy, JSON and pydantic parsing: a transaction is one atomic change of the journal, stored values read back as themselves.
- File locks, processes and threads: the lease keeps its held and ready flags; operations of one session do not overlap, coordinators over two stores do.
- Broker adapters, transports, notifications, the board's page and network code: input and output against services that are not part of this model.
- `contracts/buy_evaluation.py`, `contracts/sell_evaluation.py`, `execution/quote_status.py`: single checks without state.
- Canonical price text, time zones and the decimal precision of quotients: prices and averages are exact reals.
- Settings carry the stop rule only: the pattern's name and the switches that the validator forbids are dropped, as is the check for them in `apply_inbox_config`.
- Legacy acceptance migration of the inbox: every accepted row has its accepted version; the reason that marks migrated rows is kept and still refuses a retry.
- The constructor check of a positive average cost in `contracts/stop_evaluation.py`: an average of positive prices is positive.
- ViewOf: shows a blocked slice where the source would raise on an obligation without an order; `OnlyOverfillIsInconsistent` proves that there is none.
- LinkedFill: answers ORDER_NOT_FOUND where the source would raise on an acknowledged order without an opening request, which no run reaches.
- Dispatcher.VirtualDispatcher.Process: takes the list of controlled symbols as a parameter instead of sorting it; what is proved holds for every order.
- DraftImport: reads CSV only, with text as characters instead of UTF-16 code units and the URL library as a parameter that gives normal forms.
- Runner: a strategy is the list of its answers, one exit and one entry per tick; timestamps, reasons and the summary statistics are dropped.
- Resumption.RetryingConverges: excludes commands whose authentication a migration left unverified, which no retry may apply.
