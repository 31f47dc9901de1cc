# TeraSwap order engine: a verified model

This project models the autonomous order engine of TeraSwap and the client code around it, and proves what that code is
there to guarantee. It is written for Dafny 4.11; `dafny verify dfyconfig.toml` checks all of it.

What is modelled, in the order in which the modules build on each other:

- **Arithmetic.** `FloorDivision` holds the few nonlinear facts; `DcaChunks` says how a DCA total is cut into fills and
  how the signed minimum is scaled to them; `LimitFloor` and `SigningFloor` are the minimums the client signs.
- **The contracts.** `ExecutorTypes`, `Ledger`, `Oracle`, `Execution` and `GovernanceRules` specify each call of the current
  executor as a function from the state before it to the state after it or the reason it reverts, in the contract's own
  order of checks. `OrderExecutor` is the contract as an object that checks, moves and records one thing at a time and
  undoes it all on a revert, proved against those functions; `TradeSteps` holds the steps it shares with the previous
  contract, which `LegacyExecutor` and `LegacyOrderExecutor` treat the same way.
- **Runs.** `Machine` turns the specification into a transition system with every kind of transaction, in any order and at
  any block times. `Accounting`, `Custody`, `Cancellation`, `CancelAll`, `Settings`, `Timelock` and `Schedule` prove what holds over
  every run: exact amounts, balances, approvals, cancellation for good, timelocked settings, completability.
- **The keeper and the administrator.** `Checker` compares the off-chain view with execution; `FeedRegistration` covers the two
  feed programs and what executing a plan does to both.
- **The client.** `NonceBatches` and the plan in `CancelAll` are the cancel-all review; `DcaPanel` is DCA creation as an object
  whose clicks run on over several replies while renders, effects, chain switches and other clicks carry on.
- **Around it.** `ServiceWorker`, `VolumeAdapter`, `SeedCatalog` and `EndpointBaseline`.

Where the model needs something it cannot see, that is a parameter: block times and feed answers of every transaction,
the recovered signer, what the router takes and sends back, replies of servers and RPCs.
Hashes are taken to be injective, so an order stands for its own hash and a queued action is named by its content and
the block time of its queueing. 256-bit arithmetic is checked as the compiler checks it: leaving the range reverts.
A bitmap word is the set of its one-bits.

## Where the code does less than its documentation says

Each of these is proved, with the exact condition.

- The fallback minimum is documented as never one unit and always clearable (src/lib/order-engine/v3-min-derivation.ts:209-213 and
  243-248). It is one unit for tokens with up to four decimals, and a DCA order signed with it has no floor, and so
  reverts, on any fill for which the minimum times the smallest chunk is below the total
  (`SigningFloor.EveryFillHasAFloor`, `FallbackDiesOnCoarseTokens`, `FallbackCanDieOnUsdc`).
- "Cancel all" is documented to cover all current orders of the previous contract (src/hooks/useOrderEngine.ts:1132). The
  raise is frozen from the two nonces read at review and may land in any state. It then stops exactly the orders whose nonce
  is at most the larger one read, and the one-shot orders of an owner whose running nonce still is
  (`CancelAll.CancelAllOnLegacyOrders`, `CancelAllOnLegacyRuns`). So the later DCA orders of a session go on
  (`SessionOrdersOutliveCancelAll`); a listed one-shot order slips through if the one before it fills first
  (`OneShotSlipsThrough`); and with the nonces not read yet the raise may stop nothing (`UnreadNonceStopsNothing`).
- The heading of the cancel-all review says "one transaction" whenever no DCA order is listed
  (src/components/OrderCancelReviewModal.tsx:60), also when several are sent (`CancelAll.HeadingIsRightExactly`).
- Nonces for the current executor come from the previous one's running nonce, which its fills never move
  (src/hooks/useOrderEngine.ts:521-526 and 611-619): after a reload the same nonces are handed out again, and an order whose nonce
  was spent never fills (`CancelAll.ReloadReusesSpentNonces`). It can be admitted exactly if no fill spent its nonce and its
  owner did not mark it as used (`RenewedOrderIsAdmittedExactly`).
- The keeper's view looks for the even share where execution takes the chunk, which can be one unit more
  (`Checker.CheckerIsExact`, `FundsGapIsOneUnit`).
- The creation guard is one interval stricter than the contract (`Schedule.GuardIsOneIntervalStrict`).
- A planned feed action can still revert: the planner does not check the decimals the contract insists on
  (`FeedRegistration.PlannedActionRuns`).
- Token and ETH output are both meant to reach the owner, but ETH sent along is left in the contract exactly if the tokens
  alone reach the floor (contracts/order-engine/TeraSwapOrderExecutorV3.sol:586-611; `Custody.EthStaysExactly`).
- An order worth between one and two output units at its prices is signed at the fallback once there is any slippage, because
  the reference is floored first (`SigningFloor.SigningMinIsClose`, `OneUnitIsNotSigned`).
- A limit order into a token with more decimals than the input is signed with a minimum of zero, which the contract refuses,
  exactly when amount times price is below one (`LimitFloor.ScaledUpMinIsZeroExactly`).
- In the DCA form a floor-tier reply is not compared with the present selection, so an order for the pair of the click can
  go out after another pair was picked; it is for the present selection exactly if the click's still is
  (`DcaPanel.OldPairGoesOut`, `GoesOutForThePresentPairExactly`).
- A fallback price outlives the token it was fetched for until the next reply, and an order can be signed with it
  (`DcaPanel.PriceOutlivesItsToken`, `WrongPriceGoesOut`). With nothing being asked for a leg at the click, its price is
  its own token's exactly if the effect had seen the selection (`OwnPricesExactly`); with a request under way both
  happen (`OwnPriceAskedAgain`).
- The form lets an amount through whose digits come to nothing in the token's units: the button looks at the text as a
  number. The order then carries an amount of zero, which createOrder's own check refuses
  (src/hooks/useOrderEngine.ts:690; `DcaPanel.NothingGoesOut`).

## Model

| member | source | states |
|---|---|---|
| DcaChunks.ChunksTelescope | contracts/order-engine/TeraSwapOrderExecutorV3.sol:476-495 | The first k chunks of a total add up to exactly the floor of total·k/n, and all n of them to the total |
| DcaChunks.ChunkIsFloorOrCeiling | src/components/DocsPage.tsx:769-775 | Every fill is the even share rounded down or up (up only if the split is uneven), the first one rounded down |
| DcaChunks.EveryChunkClearsMinimum | src/hooks/useOrderEngine.ts:690-691 | The client's one check of total/n against the minimum order size holds exactly when every on-chain fill reaches it |
| DcaChunks.FloorsTrackTheMinimum | contracts/order-engine/TeraSwapOrderExecutorV3.sol:521-531 | For any fills, the scaled minimums add up to their share of the signed minimum, less than one unit per fill short |
| DcaChunks.CompleteRunFloor | src/components/DCAPanel.tsx:920-925 | Fills that take the whole total have floors adding up to more than M − n and at most M |
| DcaChunks.DividingTwiceLosesTheFloor | src/components/DCAPanel.tsx:920-925 | Signing M/n instead leaves a complete run a guarantee of at most M/n, so the division must happen once |
| DcaChunks.DisplayedFloorIsClose | src/components/DCAPanel.tsx:1466-1479 | The figure shown as enforced per buy exceeds a fill's real floor by at most M/T rounded up |
| DcaChunks.DisplayedFloorIsExactWhenEven | src/components/DCAPanel.tsx:1466-1479 | When the total splits evenly the figure shown is every fill's real floor |
| Oracle.FairValueExactly | contracts/order-engine/TeraSwapOrderExecutorV3.sol:1031-1097 | On the feeds' raw answers, both ways: there is a fair value exactly for a positive amount with the sequencer up for more than an hour, both registered feeds positive, complete and fresh, and arithmetic in range; it is then the two-step value of the answers, and where every feed can be read nothing else makes the contract do without one |
| Oracle.FairValueIsClose | contracts/order-engine/TeraSwapOrderExecutorV3.sol:1054-1097 | The two-step fair value is never above the exact one, and below it by less than one unit plus the value of one dollar step |
| Oracle.FairValueIsVouchedFor | contracts/order-engine/TeraSwapOrderExecutorV3.sol:1031-1097 | A fair value rests on a running sequencer and two registered feeds with positive, complete, fresh answers, and never shrinks with the amount |
| Oracle.SequencerUpExactly | contracts/order-engine/TeraSwapOrderExecutorV3.sol:1031-1040 | The sequencer counts as up exactly if there is none or it reports up since more than an hour |
| Oracle.ReadFeedExactly | contracts/order-engine/TeraSwapOrderExecutorV3.sol:1042-1061 | A leg has a price exactly if its registered feed gives a positive, complete, fresh answer, and then it is that answer |
| Oracle.PriceOkExactly | contracts/order-engine/TeraSwapOrderExecutorV3.sol:1100-1145 | The trigger check passes exactly without a trigger or with a usable answer within bounds on the right side of the target; it reverts exactly for a feed without code or from the future |
| Execution.AdmittedDca | contracts/order-engine/TeraSwapOrderExecutorV3.sol:473-495 | An admitted DCA call moves the chunk whose turn it is, after its interval, before expiry, in range, without touching nonces |
| Execution.FillFrame | contracts/order-engine/TeraSwapOrderExecutorV3.sol:428-629 | A fill pulls what it was admitted for, within balance and approval, and changes only the ledger, the order's counters or its nonce |
| Execution.FillDetails | contracts/order-engine/TeraSwapOrderExecutorV3.sol:511-617 | Fee, floor and delivered output of a fill come from the pulled amount, the fee rate, the oracle and the settlement |
| TradeSteps.TakeFee | contracts/order-engine/TeraSwapOrderExecutorV3.sol:503-519 | Trigger, balance and approval checked in turn, then the fee |
| TradeSteps.ComputeFloor | contracts/order-engine/TeraSwapOrderExecutorV3.sol:521-554 | The scaled minimum, raised to the oracle's bound where there is one, or the error on a zero or an overflow |
| TradeSteps.SwapOnRouter | contracts/order-engine/TeraSwapOrderExecutorV3.sol:567-577 | The router's transfers step by step, with the approval withdrawn afterwards |
| TradeSteps.DeliverOutput | contracts/order-engine/TeraSwapOrderExecutorV3.sol:589-611 | Delivery branch by branch: tokens, ETH, wrapped again, or both, or the error |
| TradeSteps.ReturnLeftovers | contracts/order-engine/TeraSwapOrderExecutorV3.sol:613-617 | The input left over goes to the owner and none stays |
| GovernanceRules.Administer | contracts/order-engine/TeraSwapOrderExecutorV3.sol:679-1023 | No administrative command touches the order book |
| Machine.StepOnOrderBook | contracts/order-engine/TeraSwapOrderExecutorV3.sol:428-673 | Cancellations and used nonces only grow, and only a fill moves a counter or a clock |
| Accounting.DcaFill | contracts/order-engine/TeraSwapOrderExecutorV3.sol:476-495 | One DCA fill: which chunk, when, and that only this order's counter and clock move, by one and to now |
| Accounting.NotThisOrder | contracts/order-engine/TeraSwapOrderExecutorV3.sol:582-587 | Any transaction that is not a fill of an order leaves its counter and clock alone |
| Accounting.FillsAreTheFirstChunks | src/components/DocsPage.tsx:769-775 | Over every run, an order filled k times had exactly its first k chunks taken, and k never exceeds n |
| Accounting.InputPulledIsExact | src/components/DocsPage.tsx:769-775 | Over every run the input taken after k fills is the floor of T·k/n; a completed order took exactly T |
| Accounting.FillsStayInRange | contracts/order-engine/TeraSwapOrderExecutorV3.sol:486-494 | Completed fills keep T·k within 256 bits; an order with T·n out of range can never be completed |
| Accounting.RevertedCallsVanish | src/components/DocsPage.tsx:769-775 | Failed fills and other reverted calls leave no trace: without them every run ends in the same state with the same fills |
| Accounting.FillsMeetTheirTrigger | contracts/order-engine/TeraSwapOrderExecutorV3.sol:1100-1145 | Over every run an order with a trigger fills only in a block in which its feed gives a positive, complete, fresh answer within bounds on the right side of the target |
| Accounting.FillsKeepTheSchedule | src/components/DocsPage.tsx:769-775 | Over every run fills of an order are an interval apart and none is after expiry, whatever the block times |
| Accounting.FloorIsTheLargerBound | contracts/order-engine/TeraSwapOrderExecutorV3.sol:533-554 | The enforced floor is exactly the larger of the scaled signed minimum, which is never zero, and the oracle bound |
| Accounting.FloorExactly | contracts/order-engine/TeraSwapOrderExecutorV3.sol:521-554 | Exactly when there is a floor and what it is, on the feeds' raw answers: the larger of signed bound and fair value less slippage where prices are vouched for, the signed bound alone where they are not |
| Accounting.FillPaysFairValue | contracts/order-engine/TeraSwapOrderExecutorV3.sol:533-611 | With prices vouched for, whatever the feeds' decimals, a fill pays at least the fair value of the routed amount less the signed slippage |
| Accounting.FillsPayFairValue | contracts/order-engine/TeraSwapOrderExecutorV3.sol:533-611 | The same for every fill of every run |
| Accounting.FairPaymentIsClose | contracts/order-engine/TeraSwapOrderExecutorV3.sol:1063-1097 | In exact numbers, what that comes to against the value of the routed amount at the feeds' answers |
| Accounting.FillPaysItsFloor | contracts/order-engine/TeraSwapOrderExecutorV3.sol:517-611 | Every fill delivers at least both bounds in tokens and ETH together, for a fee of a tenth of a percent |
| Accounting.FillsPayTheirFloors | contracts/order-engine/TeraSwapOrderExecutorV3.sol:521-611 | Over every run an order has been paid at least the sum of the floors of the chunks taken |
| Accounting.CompletedOrderPaysTheMinimum | src/components/DCAPanel.tsx:920-925 | A completed order has been paid more than its signed minimum less one unit per fill |
| Custody.FillBalanceSheet | contracts/order-engine/TeraSwapOrderExecutorV3.sol:556-617 | Every account's balance of every token after a fill, whoever the parties are: the sum of pull, fee, swap, wrapping and delivery, and then all the input the contract holds goes to the owner |
| Custody.FilledOrderBalanceSheet | contracts/order-engine/TeraSwapOrderExecutorV3.sol:428-629 | The same for a whole transaction, in terms of its receipt |
| Custody.ExecutorKeepsNothing | contracts/order-engine/TeraSwapOrderExecutorV3.sol:589-617 | No input stays in the contract; output stays exactly when the order is paid in ETH for wrapped ETH and the router also sent tokens |
| Custody.EthStaysExactly | contracts/order-engine/TeraSwapOrderExecutorV3.sol:589-611 | ETH from the router is paid out or wrapped, except that all of it stays in the contract exactly if the tokens alone reach the floor |
| Custody.SettlesExactly | contracts/order-engine/TeraSwapOrderExecutorV3.sol:556-617 | A funded order settles if and only if the router stays within approval and balances and what comes back reaches the floor in tokens, in ETH for wrapped ETH, or in both |
| Custody.BalancesFallByConsent | contracts/order-engine/TeraSwapOrderExecutorV3.sol:423-629 | Nobody else's balance falls but by their own transfer, a spender they approved, an order they signed and approved, or a whitelisted router's own output |
| Custody.OwnersLoseOnlyWhatTheySigned | src/components/OrderReviewModal.tsx:53-66 | Over every run, an owner who does nothing else loses at most what was pulled for the orders they signed |
| Custody.FillLeavesNoApproval | contracts/order-engine/TeraSwapOrderExecutorV3.sol:564-580 | After a fill the router has no approval left, and no other approval of the executor has grown |
| Custody.ExecutorApprovesNobody | contracts/order-engine/TeraSwapOrderExecutorV3.sol:564-580 | In every reachable state the executor has no approval outstanding |
| Custody.FillUsesAllowance | contracts/order-engine/TeraSwapOrderExecutorV3.sol:556-617 | A fill uses up exactly the pulled amount of its own owner's approval and no other approval |
| Custody.AllowanceTracksTheOrder | src/components/OrderReviewModal.tsx:53-66 | Over every run an approval nothing else draws on is the approved amount less the chunks taken |
| Custody.ExactApprovalIsEnough | src/components/DocsPage.tsx:759-775 | An approval of exactly the total covers the next chunk in every reachable state and is zero after the last fill |
| Custody.SmallerApprovalNeverCompletes | src/components/OrderReviewModal.tsx:53-66 | With any smaller approval the last fill can never happen |
| Custody.FillConserves | contracts/order-engine/TeraSwapOrderExecutorV3.sol:556-617 | A fill creates and destroys no tokens, whoever its parties are; it makes exactly as much wrapped ETH as it wraps |
| Custody.RunConserves | contracts/order-engine/TeraSwapOrderExecutorV3.sol:428-841 | Over every run of fills, sweeps, settings and token calls, what all accounts taking part hold together never changes, except that wrapped ETH grows by exactly the ETH wrapped |
| Checker.CheckerIsExact | contracts/order-engine/TeraSwapOrderExecutorV3.sol:353-412 | Execution reaches the trade if and only if the view says yes and the conditions it leaves out hold; it never says no to an executable order |
| Checker.ReachesTradeExactly | contracts/order-engine/TeraSwapOrderExecutorV3.sol:434-512 | An order reaches the trade if and only if it is signed, live, due, funded and approved, and its trigger, if any, is met |
| Checker.FillsExactly | contracts/order-engine/TeraSwapOrderExecutorV3.sol:428-629 | An order fills if and only if in addition there is a floor for it and the swap suffices for that floor |
| Checker.FirstObstacleDecides | contracts/order-engine/TeraSwapOrderExecutorV3.sol:434-512 | A call is refused for the first obstacle in the contract's order, and there is none exactly if the order is tradable |
| Checker.FundsGapExists | contracts/order-engine/TeraSwapOrderExecutorV3.sol:400-409 | A concrete total whose last chunk is one unit more than the view looks for |
| Checker.FundsGapIsOneUnit | contracts/order-engine/TeraSwapOrderExecutorV3.sol:400-409 | View and execution disagree on funds exactly for a rounded-up chunk with funds of the rounded-down one |
| Schedule.CustomScheduleAccepted | src/lib/order-engine/dca-custom.ts:67-79 | With the derived, capped expiry the guard accepts exactly the schedules within the longest expiry |
| Schedule.CustomExpiryLeavesRoom | src/lib/order-engine/dca-custom.ts:67-79 | Unless capped at ninety days the derived expiry leaves the larger of an hour and a tenth of the interval beyond the schedule |
| Schedule.CustomInputAccepted | src/lib/order-engine/dca-custom.ts:33-55 | For any typed values: hourly schedules are always accepted, daily ones exactly up to ninety buy-days |
| Schedule.KeeperIsAdmitted | contracts/order-engine/TeraSwapOrderExecutorV3.sol:434-495 | A ready order is admitted on time, for the chunk whose turn it is |
| Schedule.PlainSettlement | contracts/order-engine/TeraSwapOrderExecutorV3.sol:556-617 | A router that takes the net amount and pays just the floor settles, with the floor delivered |
| Schedule.KeeperCallFills | contracts/order-engine/TeraSwapOrderExecutorV3.sol:428-629 | Under any feed answers that give a floor the router can pay, a keeper's call on time goes through, for exactly the chunk, the fee and that floor |
| Schedule.KeeperStaysReady | contracts/order-engine/TeraSwapOrderExecutorV3.sol:428-629 | Such a fill leaves settings, funds and approval ready for the next one and costs the router at most the floor |
| Schedule.KeeperRunFills | contracts/order-engine/TeraSwapOrderExecutorV3.sol:476-495 | Whatever the feeds answer, with a floor for every fill and a router that can pay them, calls an interval apart make one fill each |
| Schedule.KeeperRunCompletes | contracts/order-engine/TeraSwapOrderExecutorV3.sol:428-629 | As many such answers as fills complete the order within its schedule |
| Schedule.SilentFloor | contracts/order-engine/TeraSwapOrderExecutorV3.sol:1046-1097 | Whatever feeds and sequencer are registered, there are answers under which the signed minimum alone is the floor |
| Schedule.CompletionTakesTime | contracts/order-engine/TeraSwapOrderExecutorV3.sol:476-484 | No run completes an order unless all but one of its intervals fit between start and expiry |
| Schedule.CompletableExactly | src/lib/order-engine/dca-creation-guard.ts:30-57 | Whatever feeds are registered, a run completing the order from a start time exists if and only if n − 1 intervals fit before the expiry |
| Schedule.GuardIsOneIntervalStrict | src/components/DCAPanel.tsx:784-790 | Whatever the guard accepts can be completed; what it rejects needlessly is exactly what would finish within the last interval |
| Cancellation.StoppedForever | contracts/order-engine/TeraSwapOrderExecutorV3.sol:636-673 | A withdrawn order, or a one-shot order whose nonce is used, never fills again in any later run |
| Cancellation.OneShotFill | contracts/order-engine/TeraSwapOrderExecutorV3.sol:496-501 | A one-shot fill finds its nonce free and leaves it used |
| Cancellation.NonceFillsAtMostOnce | contracts/order-engine/TeraSwapOrderExecutorV3.sol:655-673 | In any run a nonce is spent at most once, and not at all once invalidated |
| Cancellation.NonceUsedExactly | contracts/order-engine/TeraSwapOrderExecutorV3.sol:649-673 | After any run a nonce is used exactly if it was before, a fill of the run spent it, or its owner invalidated it |
| Cancellation.WithdrawnExactly | contracts/order-engine/TeraSwapOrderExecutorV3.sol:636-641 | After any run an order is withdrawn exactly if it was before or its own owner withdrew it |
| Cancellation.DcaFillIgnoresNonces | contracts/order-engine/TeraSwapOrderExecutorV3.sol:473-501 | A DCA call has the same outcome, error or receipt, whatever nonces are used |
| Cancellation.NoncesNeverStopDca | src/components/OrderCancelReviewModal.tsx:33-42 | After any nonce transactions every later run of DCA fills produces exactly the receipts it would have produced without them |
| Cancellation.InvalidationsOnlyTouchNonces | contracts/order-engine/TeraSwapOrderExecutorV3.sol:649-652 | Any number of nonce transactions fill nothing and change nothing but nonces |
| Cancellation.FreeFill | contracts/order-engine/TeraSwapOrderExecutorV3.sol:436-501 | Withdrawals and nonces of other orders change neither the outcome nor the receipt of a call |
| Cancellation.FreeOrdersKeepTheirFills | contracts/order-engine/TeraSwapOrderExecutorV3.sol:636-673 | The same over every run: states that differ in other orders' withdrawals and nonces produce the same receipts |
| NonceBatches.ComputeInvalidationBatches | src/lib/order-engine/v3-nonce-bitmap.ts:39-47 | The batches cover exactly the given nonces, with one call per distinct word |
| NonceBatches.PositionsDetermineNonce | src/lib/order-engine/v3-nonce-bitmap.ts:24-26 | Word and bit position determine the nonce |
| CancelAll.FreezePlan | src/hooks/useOrderEngine.ts:1101-1158 | The frozen plan lists exactly the wallet's active orders of the chain, their nonces and DCA orders, and the skipped rest |
| CancelAll.PromptsAnnounced | src/components/OrderCancelReviewModal.tsx:33-42 | The announced number of transactions is one for all legacy orders, one per bitmap word of the one-shot orders, and one per DCA order |
| CancelAll.HeadingIsRightExactly | src/components/OrderCancelReviewModal.tsx:55-62 | The heading agrees with the number of transactions exactly if DCA orders are listed or there is just one nonce transaction |
| CancelAll.EveryActiveOrderIsListed | src/components/OrderCancelReviewModal.tsx:138-156 | No active order is left out silently, except orders of a contract this chain does not have |
| CancelAll.CancelAllStopsCurrentOrders | src/components/OrderCancelReviewModal.tsx:99-102 | Once the plan's transactions have landed, in any order with anything between, no affected order of the current executor fills in any later run |
| CancelAll.NonceTransactionsAloneNeverStopDca | src/components/OrderCancelReviewModal.tsx:33-42 | The nonce transactions of a plan alone leave every later DCA fill as it was |
| CancelAll.PlanTouchesNothingElse | src/hooks/useOrderEngine.ts:1101-1158 | Whichever transactions of the plan land, later runs that try only orders not in it produce exactly the receipts they would have produced without them |
| CancelAll.CancelAllOnLegacyOrders | src/hooks/useOrderEngine.ts:1127-1135 | In whatever state the frozen raise lands, it stops exactly the orders with a nonce up to the larger one read and the one-shot orders of an owner whose running nonce still is |
| CancelAll.CancelAllOnLegacyRuns | src/hooks/useOrderEngine.ts:1127-1135 | Frozen at any time and landing after any run: what the condition covers fills in no later run, and runs that try only orders above the frozen nonce go on as if nothing had been sent |
| CancelAll.FreshReadStopsOneShots | src/hooks/useOrderEngine.ts:522-535 | Nonces read in the landing state stop every one-shot order, and the raise is then accepted unless a thousand nonces ahead are void |
| CancelAll.OneShotSlipsThrough | src/hooks/useOrderEngine.ts:1130-1134 | Nonces read as 5 and 0, the order on nonce 5 fills first: the raise is accepted and the listed one-shot order on nonce 6 has every outcome it would have had |
| CancelAll.UnreadNonceStopsNothing | src/hooks/useOrderEngine.ts:1128-1129 | With the nonces not read yet, a raise for a wallet at nonce 7 is accepted and stops no order from nonce 1 on |
| CancelAll.LegacyTransactionGoesThrough | contracts/order-engine/TeraSwapOrderExecutor.sol:586-594 | In whatever state it lands, the frozen raise is accepted exactly if the voided nonce is at most the larger one read and that is less than a thousand above the running nonce |
| CancelAll.SessionNoncesCountUp | src/hooks/useOrderEngine.ts:611-619 | Orders signed in one session carry consecutive nonces from the running one |
| CancelAll.SessionOrdersOutliveCancelAll | src/hooks/useOrderEngine.ts:1127-1135 | Of a session's legacy DCA orders cancel-all stops exactly those up to the larger nonce read, the first alone on a current read; over every run that tries only orders above, the fills are those there would have been if nothing had been sent |
| CancelAll.ReloadReusesSpentNonces | src/hooks/useOrderEngine.ts:521-526 | A new session's k-th one-shot order reuses the k-th nonce of the session before; if that was spent the order never fills |
| CancelAll.RenewedOrderIsAdmittedExactly | src/hooks/useOrderEngine.ts:611-619 | After any run and with the other checks in order, the renewed order is admitted exactly if its nonce was free, no fill of the run spent it and its owner did not mark it |
| LegacyExecutor.LegacyStoppedForever | contracts/order-engine/TeraSwapOrderExecutor.sol:411-461 | A withdrawn or voided order, or a one-shot order of an owner whose running nonce is below the voided one, never fills again |
| LegacyExecutor.StoppedHasNoReceipts | contracts/order-engine/TeraSwapOrderExecutor.sol:411-461 | No later run has a fill of such an order among its receipts |
| LegacyExecutor.FillIgnoresVoiding | contracts/order-engine/TeraSwapOrderExecutor.sol:431-461 | An order at or above the raised nonce has the same outcome, error or receipt, as before the raise |
| LegacyExecutor.RunsIgnoreVoiding | contracts/order-engine/test-run.js:251-273 | Over every run that leaves the wallet's void orders alone, raising its nonce changes no fill and nothing else but that nonce |
| LegacyExecutor.LegacyFillsExactly | contracts/order-engine/TeraSwapOrderExecutor.sol:389-569 | A legacy order fills if and only if it is signed, live, due, funded, on the right nonce and triggered, and the swap suffices for its scaled minimum or one unit |
| LegacyExecutor.LegacyFillsPay | contracts/order-engine/TeraSwapOrderExecutor.sol:470-540 | Over every run each fill pays at least its scaled minimum, never nothing, for a fee of a tenth of a percent |
| LegacyExecutor.LegacyFillsAreTheFirstChunks | contracts/order-engine/TeraSwapOrderExecutor.sol:433-458 | Over every run an order filled k times had exactly its first k chunks taken |
| LegacyExecutor.LegacyNoncesExactly | contracts/order-engine/TeraSwapOrderExecutor.sol:459-462 | Over every run a nonce is spent once if the running nonce has passed it, and not at all otherwise |
| LegacyOrderExecutor.LegacyOrderExecutor.InvalidateNonces | contracts/order-engine/TeraSwapOrderExecutor.sol:586-594 | The voided nonce only rises, by at most the allowed distance; otherwise nothing changes |
| LegacyOrderExecutor.LegacyOrderExecutor.constructor | contracts/order-engine/test-run.js:197-203 | A new contract has zero nonces and nothing whitelisted |
| LegacyOrderExecutor.LegacyOrderExecutor.CancelOrder | contracts/order-engine/TeraSwapOrderExecutor.sol:577-582 | Only the owner withdraws an order, and nothing else changes |
| LegacyOrderExecutor.LegacyOrderExecutor.RequireExecutable | contracts/order-engine/TeraSwapOrderExecutor.sol:395-431 | The checks one after the other: the first that fails decides the error |
| LegacyOrderExecutor.LegacyOrderExecutor.TakeAmount | contracts/order-engine/TeraSwapOrderExecutor.sol:433-462 | The chunk of a DCA order, or the whole amount on the running nonce, or the first failing check |
| LegacyOrderExecutor.LegacyOrderExecutor.Trade | contracts/order-engine/TeraSwapOrderExecutor.sol:478-558 | Pull, swap, floor of at least one unit, counters and delivery give the specified settlement |
| LegacyOrderExecutor.LegacyOrderExecutor.ExecuteOrder | contracts/order-engine/TeraSwapOrderExecutor.sol:389-569 | The contract's call ends in the specified state or, on any revert, in the state it started from |
| OrderExecutor.OrderExecutor.constructor | contracts/order-engine/test-run.js:185-203 | A new contract has nothing whitelisted, queued, used or counted |
| OrderExecutor.OrderExecutor.UseUnorderedNonce | contracts/order-engine/TeraSwapOrderExecutorV3.sol:668-673 | Flipping the bit and looking afterwards accepts exactly an unused nonce and marks it used |
| OrderExecutor.OrderExecutor.RequireExecutable | contracts/order-engine/TeraSwapOrderExecutorV3.sol:434-466 | The checks one after the other: the first that fails decides the error |
| OrderExecutor.OrderExecutor.TakeAmount | contracts/order-engine/TeraSwapOrderExecutorV3.sol:434-501 | Checks, chunk and nonce step by step give the specified amount and state, or the first failing check's error |
| OrderExecutor.OrderExecutor.Trade | contracts/order-engine/TeraSwapOrderExecutorV3.sol:556-617 | Pull, fee, swap, counters, delivery and leftovers step by step give the specified settlement |
| OrderExecutor.OrderExecutor.ExecuteOrder | contracts/order-engine/TeraSwapOrderExecutorV3.sol:428-629 | A fill is all or nothing: the specified state and receipt, or the error and the state before |
| OrderExecutor.OrderExecutor.CancelOrder | contracts/order-engine/TeraSwapOrderExecutorV3.sol:636-641 | Only the owner withdraws an order, and nothing else changes |
| OrderExecutor.OrderExecutor.Bootstrap | contracts/order-engine/TeraSwapOrderExecutorV3.sol:780-801 | Whitelists all given routers and executors once, or nothing if one is zero or not a contract |
| OrderExecutor.OrderExecutor.AddRouters | contracts/order-engine/TeraSwapOrderExecutorV3.sol:784-791 | All given routers are whitelisted, or the first bad one decides the error |
| OrderExecutor.OrderExecutor.AddExecutors | contracts/order-engine/TeraSwapOrderExecutorV3.sol:792-798 | All given executors are whitelisted, unless one is the zero address |
| OrderExecutor.OrderExecutor.QueueAction | contracts/order-engine/test-run.js:277-303 | Queueing records an action with its ready time and applies nothing |
| OrderExecutor.OrderExecutor.ExecuteQueuedAction | contracts/order-engine/TeraSwapOrderExecutorV3.sol:699-841 | A queued action is cleared and applied in its window, or everything stays, the entry included |
| OrderExecutor.OrderExecutor.ApplyAction | contracts/order-engine/TeraSwapOrderExecutorV3.sol:699-1023 | Router, administrator, sweep and feed changes step by step, the feed validated at execution |
| OrderExecutor.OrderExecutor.CancelQueuedAction | contracts/order-engine/TeraSwapOrderExecutorV3.sol:758-763 | The administrator withdraws a pending action and nothing else changes |
| OrderExecutor.OrderExecutor.ProposeExecutor | contracts/order-engine/TeraSwapOrderExecutorV3.sol:855-868 | One proposal per executor at a time, recorded with its ready time |
| OrderExecutor.OrderExecutor.ExecuteExecutorChange | contracts/order-engine/TeraSwapOrderExecutorV3.sol:871-886 | A proposal takes effect in its window and is cleared |
| OrderExecutor.OrderExecutor.CancelExecutorProposal | contracts/order-engine/TeraSwapOrderExecutorV3.sol:889-896 | The administrator withdraws a proposal |
| OrderExecutor.OrderExecutor.SetPaused | contracts/order-engine/TeraSwapOrderExecutorV3.sol:903-914 | Pausing takes effect at once, for the administrator only |
| OrderExecutor.OrderExecutor.SetOracleConfig | contracts/order-engine/TeraSwapOrderExecutorV3.sol:923-948 | Trigger-feed bounds take effect at once, after the feed is validated |
| OrderExecutor.OrderExecutor.Transact | contracts/order-engine/TeraSwapOrderExecutorV3.sol:428-1023 | Any transaction takes the object to the state the transition system says, so everything proved over runs holds of it |
| Settings.AdministerExactly | contracts/order-engine/TeraSwapOrderExecutorV3.sol:679-1023 | A command goes through if and only if the administrator gives it and what it needs holds, and then every setting, queue entry and proposal has exactly the value it should |
| Settings.OnlySweepsMoveTokens | contracts/order-engine/TeraSwapOrderExecutorV3.sol:803-841 | Of all commands only a sweep moves tokens: everything of one token goes to the administrator of that moment |
| Timelock.SettingAfterStep | contracts/order-engine/TeraSwapOrderExecutorV3.sol:679-1023 | In the transition system: nobody but the administrator of that moment changes anything |
| Timelock.PendingUntilUsed | contracts/order-engine/TeraSwapOrderExecutorV3.sol:695-763 | What is queued stays with its time until the administrator runs it or takes it back |
| Timelock.AnnouncedChangeCanBeMade | contracts/order-engine/TeraSwapOrderExecutorV3.sol:699-763 | An announced change not run or taken back goes through exactly in its window, a feed if it can be registered then |
| Timelock.PendingWasAnnounced | contracts/order-engine/TeraSwapOrderExecutorV3.sol:680-695 | Over every run a pending action was queued in it, by the administrator of that moment, with two days of delay or a week |
| Timelock.ActionWasAnnounced | scripts/dca-feeds/plan.ts:7-10 | An action is run only by the administrator of that moment, with the arguments an administrator queued, no sooner than its delay and no later than a week after |
| Timelock.ActionRunsAtMostOnce | scripts/dca-feeds/lib.ts:149-153 | A queued action takes effect at most once in a run |
| Timelock.SameArgumentsTwice | scripts/dca-feeds/plan.ts:45-52 | The same arguments queued at two block times are two actions, and running one leaves the other |
| Timelock.ProposalWasMade | contracts/order-engine/TeraSwapOrderExecutorV3.sol:855-896 | Over every run a pending executor change was proposed in it by the administrator of that moment, with its delay |
| Timelock.SettingChangesWereAnnounced | contracts/order-engine/test-run.js:205-303 | From a new contract on, whatever run changes a setting, an administrator made the final value what it is, and for routers, executors, the administrator and feeds an administrator announced it in the run in time, unless it is part of the one-time setup; pausing and trigger bounds alone take no notice |
| Timelock.SetupAtMostOnce | contracts/order-engine/test-run.js:213-249 | The untimelocked setup succeeds at most once in a run |
| FeedRegistration.CheckFeedLive | scripts/dca-feeds/lib.ts:73-96 | No complaints exactly for a readable feed with the configured description and decimals, a positive price, and an age within both limits |
| FeedRegistration.Plan | scripts/dca-feeds/plan.ts:31-60 | Each enabled phase-1 row is blocked, unchanged or planned with its own action, and the exit code is 1 exactly if one is blocked |
| FeedRegistration.VerifyRow | scripts/dca-feeds/verify.ts:22-39 | A row has no fatal complaint exactly if both registries agree, hold what the row wants, and the feed is healthy |
| FeedRegistration.StoredProblems | scripts/dca-feeds/verify.ts:24-34 | The stored entry draws no fatal complaint exactly if both reads agree and it holds what the row wants |
| FeedRegistration.Verify | scripts/dca-feeds/verify.ts:22-43 | Verification succeeds exactly if every enabled row of phases 0 and 1 passes |
| FeedRegistration.VerifierAgreesWithPlanner | scripts/dca-feeds/verify.ts:27-38 | A row the planner accepts passes exactly if it is up to date, stored with the right feed decimals, and any second RPC agrees |
| FeedRegistration.VerifiedRowIsNotPlanned | scripts/dca-feeds/plan.ts:31-39 | A verified row is never planned, and blocked only for its staleness limit |
| FeedRegistration.PlannedActionRuns | contracts/order-engine/TeraSwapOrderExecutorV3.sol:986-1023 | A planned action, ready and on unchanged answers, runs exactly if the decimals are acceptable and the feed's clock is not ahead |
| FeedRegistration.PlannedActionCanRevert | scripts/dca-feeds/plan.ts:31-45 | A concrete row, a feed with six decimals in agreement with its configuration, that is planned and whose action reverts |
| FeedRegistration.RegistryAfterRun | contracts/order-engine/TeraSwapOrderExecutorV3.sol:962-1023 | After any run a token's entry is the one its row asks for if that was executed, and unchanged otherwise |
| FeedRegistration.RowAfterPlan | scripts/dca-feeds/plan.ts:41-52 | Executing the plan gives every planned row its entry and leaves the entries of all other rows |
| FeedRegistration.PlanConverges | scripts/dca-feeds/plan.ts:31-55 | After the plan is executed no row is planned, blocked rows are the same, and verification passes the others under the exact condition |
| FeedRegistration.SecondPlanIsEmpty | scripts/dca-feeds/plan.ts:31-55 | After the plan is executed a second plan emits no action |
| LimitFloor.SignedMinIsClose | src/components/LimitOrderPanel.tsx:445-463 | The signed minimum never exceeds the exact rational value and misses it by less than 2, or by less than 10^d + 1 when decimals grow by d |
| LimitFloor.SignedMinMonotone | src/components/ConditionalOrderPanel.tsx:351-371 | It grows with amount and price and falls with slippage |
| LimitFloor.SignedMinBelowPreview | src/components/LimitOrderPanel.tsx:351-369 | It never exceeds the preview and equals it exactly without slippage or output |
| LimitFloor.LegacyIsTwoHundredBps | src/components/LimitOrderPanel.tsx:460-462 | The previous flat 98% path is the new path at 200 basis points |
| LimitFloor.ScaledUpMinIsZeroExactly | src/components/LimitOrderPanel.tsx:449-457 | With growing decimals the minimum is zero exactly when amount times price is below one |
| LimitFloor.SmallOrderIsSignedAtZero | src/components/LimitOrderPanel.tsx:449-463 | A concrete order that should be signed at 485 billion output units and is signed at zero |
| LimitFloor.UnderpricedOrderNeverFills | contracts/order-engine/TeraSwapOrderExecutorV3.sol:442-443 | In no run at all does such an order fill |
| SigningFloor.SigningMinIsHonest | src/lib/order-engine/v3-min-derivation.ts:220-250 | Something positive is always signed, called price-derived only with live prices on both legs, and named after the weaker source |
| SigningFloor.SigningMinIsClose | src/lib/order-engine/v3-min-derivation.ts:64-134 | The signed minimum is at most the exact value at the live prices, Chainlink first, less the slippage, and less than two units below it; the fallback is signed exactly if a leg has no price or the reference is below the one or two units it takes |
| SigningFloor.SigningMinMonotone | src/lib/order-engine/v3-min-derivation.ts:117-136 | A wider slippage or a smaller amount never signs more |
| SigningFloor.OneUnitIsNotSigned | src/lib/order-engine/v3-min-derivation.ts:134-135 | A concrete order worth more than one unit after slippage that is signed at the fallback |
| SigningFloor.ReferenceTracksFairValue | src/lib/order-engine/v3-min-derivation.ts:64-88 | One floored step against two on the same prices: never below, and above by less than one unit plus 10^decimals over the price |
| SigningFloor.ReferenceTracksContract | src/lib/order-engine/v3-min-derivation.ts:53-88 | On the same prices, whatever decimals the feeds have, there is a fair value on chain, and the client's reference is above it only by that rounding |
| SigningFloor.SignedFloorIsReachable | src/components/DCAPanel.tsx:906-925 | With a slippage of at least the fee, a fill at the signing price clears the scaled signed minimum for every chunk |
| SigningFloor.EveryFillHasAFloor | contracts/order-engine/TeraSwapOrderExecutorV3.sol:525-531 | Every fill has a nonzero floor exactly if the total is at most the minimum times the even share |
| SigningFloor.EvenFillsHaveAFloor | contracts/order-engine/TeraSwapOrderExecutorV3.sol:525-531 | For an even split that is one output unit per fill |
| SigningFloor.FallbackDiesOnCoarseTokens | src/lib/order-engine/v3-min-derivation.ts:243-249 | The fallback minimum never survives two or more fills with at most four output decimals |
| SigningFloor.FallbackCanDieOnUsdc | src/lib/order-engine/v3-min-derivation.ts:243-249 | A concrete hundred-buy order into a six-decimal token whose first fill has no floor |
| DcaPanel.EvaluateOracleGate | src/components/DCAPanel.tsx:122-130 | The pair is blocked exactly if either leg is |
| DcaPanel.DcaPanel.constructor | src/components/DCAPanel.tsx:480-576 | Mounting runs every effect once: the floor is asked for, and the missing legs behind an open gate |
| DcaPanel.DcaPanel.RunPairEffect | src/components/DCAPanel.tsx:484 | A pair change clears the route block and raises the route-check number |
| DcaPanel.DcaPanel.RunFloorEffect | src/components/DCAPanel.tsx:505-516 | A change of selection drops the earlier floor question and asks for the new pair |
| DcaPanel.DcaPanel.RunEffects | src/components/DCAPanel.tsx:480-516 | Effects of a render leave the specified state, and a pair change makes every earlier route check stop counting |
| DcaPanel.DcaPanel.RunLlamaEffect | src/components/DCAPanel.tsx:551-576 | Behind a closed gate both fallback prices are cleared and nothing is asked; behind an open one exactly the missing legs are asked for |
| DcaPanel.FallbackKeptExactly | src/components/DCAPanel.tsx:551-576 | The effect keeps a fallback price exactly for a token without an oracle price, behind an open gate of a chain with the new executor |
| DcaPanel.DcaPanel.AskMissingLegs | src/components/DCAPanel.tsx:563-574 | Exactly the legs without an oracle price are asked for, keeping the price on hand; the other legs are cleared |
| DcaPanel.DcaPanel.PickPair | src/components/DCAPanel.tsx:480-484 | Picking tokens runs the pending effects first and changes nothing else |
| DcaPanel.DcaPanel.Adjust | src/components/DCAPanel.tsx:523-549 | Amount, schedule, slippage and oracle readings change without touching what is filed under the selection |
| DcaPanel.DcaPanel.SwitchChain | src/components/DCAPanel.tsx:400-411 | A chain switch resets both tokens and submits nothing |
| DcaPanel.DcaPanel.LlamaReply | src/components/DCAPanel.tsx:565-574 | A reply of a cancelled run changes nothing |
| DcaPanel.DcaPanel.FloorReply | src/components/DCAPanel.tsx:505-516 | A floor reply is filed under the selection it was asked for, or dropped |
| DcaPanel.DcaPanel.Create | src/components/DCAPanel.tsx:794-863 | A click does nothing, blocks, asks for a route, asks for a tier or finishes, as specified for its render |
| DcaPanel.DcaPanel.Start | src/components/DCAPanel.tsx:794-838 | A click that is let through clears the blocks of an earlier attempt, even if the amount then fails to parse |
| DcaPanel.DcaPanel.AskRoute | src/components/DCAPanel.tsx:841-857 | A new route check gets the next number, so every earlier one stops counting |
| DcaPanel.DcaPanel.GoOn | src/components/DCAPanel.tsx:886-904 | Without an acknowledged tier the tier is asked for before anything is submitted |
| DcaPanel.DcaPanel.Finish | src/components/DCAPanel.tsx:926-993 | One order goes out, from the click's own render, or a minimum worth too little blocks that render's selection |
| DcaPanel.DcaPanel.RouteReply | src/components/DCAPanel.tsx:841-872 | A route reply that no longer counts neither blocks nor submits; one that counts blocks or goes on with the click's own render |
| DcaPanel.DcaPanel.TierReply | src/components/DCAPanel.tsx:885-904 | A reply below the strongest tier submits nothing and raises a consent for the click's own selection |
| DcaPanel.DcaPanel.ConfirmConsent | src/components/DCAPanel.tsx:1202-1210 | Only a consent shown for the present selection can be accepted, and the click starts over with its tier |
| DcaPanel.DcaPanel.CancelConsent | src/components/DCAPanel.tsx:1202-1210 | Declining clears the consent and nothing else |
| DcaPanel.EveryOrderMatchesItsChecks | src/components/DCAPanel.tsx:794-994 | In every reachable state each submitted order carries the chain and pair its route and tier were answered for, amount, number of buys, interval, expiry and slippage of its render one by one, a minimum from that render with both readings trusted and worth enough, priced by its own tokens wherever nothing was being asked for, and a fitting schedule; each click submits once |
| DcaPanel.OrderMinimumIsClose | src/components/DCAPanel.tsx:926-938 | The minimum of every order for the new executor is within two units below the value of its whole amount at the render's live prices less the render's slippage, or the fallback, exactly where a price is missing or the value too small |
| DcaPanel.PressedExactly | src/components/DCAPanel.tsx:792-904 | Exactly when a click asks for a route, asks for a tier, or submits |
| DcaPanel.OneRouteQuestion | src/components/DCAPanel.tsx:841-861 | There is never more than one open route question, and the button is off while there is one |
| DcaPanel.RefusalBelongsToItsPair | src/components/DCAPanel.tsx:389-398 | A minimum worth too little submits nothing and blocks exactly the click's own selection |
| DcaPanel.OwnPricesExactly | src/components/DCAPanel.tsx:551-576 | With nothing being asked for a leg at the click, its fallback price is its own token's exactly if the effect had seen that chain and token; once effects have run, any other price has a newer request under way |
| DcaPanel.GoesOutForThePresentPairExactly | src/components/DCAPanel.tsx:885-993 | An order that goes out on a reply is for the present selection if and only if the click's selection still is |
| DcaPanel.ClosedGateHasNoFallback | src/components/DCAPanel.tsx:541-576 | Once effects have run behind a closed gate, both fallback prices are absent and no request can bring one |
| DcaPanel.CountingCheckIsCurrent | src/components/DCAPanel.tsx:480-484 | A route check that still counts, with no pair change waiting, is about the present selection |
| DcaPanel.Drive | src/components/DCAPanel.tsx:480-994 | Every sequence of events keeps all of this |
| DcaPanel.OldPairGoesOut | src/components/DCAPanel.tsx:885-904 | A concrete run in which an order for a pair no longer selected is submitted |
| DcaPanel.NothingGoesOut | src/components/DCAPanel.tsx:792-838 | A concrete run in which an order for an amount of zero goes out, for createOrder to refuse |
| DcaPanel.PriceOutlivesItsToken | src/components/DCAPanel.tsx:565-574 | A concrete run in which the fallback price belongs to the token before |
| DcaPanel.WrongPriceGoesOut | src/components/DCAPanel.tsx:926-938 | A concrete run in which an order is submitted with a minimum priced by the token before |
| DcaPanel.OwnPriceAskedAgain | src/components/DCAPanel.tsx:561-576 | A concrete run in which a newer request is under way and the price on hand is still the token's own |
| ServiceWorker.ServiceWorker.Dispatch | public/sw.js:47-112 | Exactly same-origin HTTPS GETs outside the API, for an asset or a navigation, are taken over |
| ServiceWorker.ServiceWorker.Lookup | public/sw.js:79-130 | An asset hit answers from the cache, a miss goes to the network; a failed page falls back to its own entry, then the shell |
| ServiceWorker.ServiceWorker.Reply | public/sw.js:81-130 | A reply is the answer at once; a write starts exactly for status 200; a failed asset fetch answers 504 |
| ServiceWorker.ServiceWorker.LandPut | public/sw.js:87-121 | A write lands at any later time as the response to its own request |
| ServiceWorker.ServiceWorker.OpenCache | public/sw.js:89 | Opening the cache creates it if it is gone and never empties it |
| ServiceWorker.ServiceWorker.DropPut | public/sw.js:87-90 | A write that never lands changes no cache |
| ServiceWorker.ServiceWorker.Install | public/sw.js:20-28 | The shell is stored as a whole or not at all |
| ServiceWorker.ServiceWorker.Activate | public/sw.js:31-43 | Exactly the current cache survives activation |
| ServiceWorker.Serve | public/sw.js:20-132 | Every event sequence, with writes landing late, out of order or never, keeps the worker's state sound |
| ServiceWorker.TakenExactly | public/sw.js:20-28 | The shell is taken exactly if every file came with a success that is not partial, each under its own address |
| ServiceWorker.OnlyOwnRequestsAnswered | public/sw.js:47-112 | API, cross-origin, non-GET, non-HTTPS and unrecognised requests are never answered or cached |
| ServiceWorker.FreshWhenOnline | public/sw.js:113-131 | A request whose fetch succeeded has been answered, with that very reply; every intercepted request is under way or answered, and a page gets anything else only after its own fetch failed |
| ServiceWorker.CachedWasFetched | public/sw.js:82-90 | Every entry added while serving is a status-200 network answer to a same-origin HTTPS non-API GET of that address |
| VolumeAdapter.Fetch | integrations/defillama/teraswap-adapter.ts:276-310 | One slot's balances are the per-token sums of both contracts' logs in it |
| VolumeAdapter.Accumulate | integrations/defillama/teraswap-adapter.ts:282-291 | Adding logs one by one adds their per-token sums |
| VolumeAdapter.OneLog | integrations/defillama/teraswap-adapter.ts:282-285 | A log inside the window counts its total as volume and its fee as fees of its own token, and outside it counts nothing |
| VolumeAdapter.RunSlots | integrations/defillama/teraswap-adapter.ts:196-207 | All admitted hourly slots together count exactly the logs from the last hour of the start day on |
| VolumeAdapter.EarlyStartCountsEverything | integrations/defillama/teraswap-adapter.ts:209-211 | A start at least a day before the first log's day counts everything |
| VolumeAdapter.CompleteExactly | integrations/defillama/teraswap-adapter.ts:196-211 | A token's sum is complete exactly if it has no amount before that hour |
| VolumeAdapter.SameDayStartCountsLastHour | integrations/defillama/teraswap-adapter.ts:201-207 | A start on the first log's own day counts only that day's last hour |
| SeedCatalog.SeedsFor | scripts/token-catalog/build.ts:116-140 | The seed map holds for every claimed address the correction of the first surviving row in precedence order, and nothing else |
| SeedCatalog.ListsByChain | scripts/token-catalog/build.ts:125-163 | Which row lists count on which chain, and in which order they win |
| SeedCatalog.PushAll | scripts/token-catalog/build.ts:118-124 | Pushing rows after others keeps the first claim of every address |
| SeedCatalog.HandCuratedSeedsFor | scripts/token-catalog/build.ts:150-164 | The hand-curated set holds exactly the corrected addresses of the curated rows |
| SeedCatalog.NoSurvivingRowIsLost | scripts/token-catalog/build.ts:90-115 | No row that survives correction is lost, verified or not |
| SeedCatalog.FirstWinsIsUnique | scripts/token-catalog/build.ts:118-124 | The rows determine the map |
| SeedCatalog.HandCuratedIsSeeded | scripts/token-catalog/build.ts:142-164 | A hand-curated address is missing from the seeds exactly if every row claiming it is native |
| EndpointBaseline.DiffBaselines | scripts/capture-endpoint-baseline.ts:103-140 | The report is the changes of each endpoint of the newer file in order, then the removed ids |
| EndpointBaseline.PushChanges | scripts/capture-endpoint-baseline.ts:111-131 | The lines pushed for one endpoint are its changes |
| EndpointBaseline.ChangesAreTheDifferences | scripts/capture-endpoint-baseline.ts:111-131 | Exactly the differing compared fields of an endpoint are reported |
| EndpointBaseline.EmptyReportMeansSame | scripts/capture-endpoint-baseline.ts:103-140 | The report is empty exactly if both files have the same ids and agree on every compared field |
| EndpointBaseline.AddedAndRemovedAreNamed | scripts/capture-endpoint-baseline.ts:105-138 | Every added or removed id has its own line, and no such line is made up |

## Left out

- Tokens that charge on transfer, call back, or treat the largest approval as unlimited: balances move by exactly the amount named, as EIP-20 describes, so calls do not re-enter.
- A router's inner workings: it takes at most what was approved and sends at most what it has; ETH is counted in receipts but the contract's and the users' ETH balances are not kept.
- The price trigger's human-readable reasons, events, gas, and the ETH half of a sweep.
- EIP-712 signing, hashing and address checksums: signatures enter as the recovered signer, and sentinel checks on addresses are not modelled.
- setOracleConfig and pausing take effect at once in the contract; they are commands of the model but no timelock statement covers them.
- Schedule.CompletableExactly: is about orders without a trigger, as the form signs them, whose minimum reaches every fill, between two tokens, with a router that has the minimum to pay and is not the executor itself; for other feed answers see Schedule.KeeperRunCompletes.
- LegacyExecutor.LegacyStoppedForever: settings and token changes of the previous contract are arbitrary steps there; its own governance is not modelled a second time.
- CancelAll.FreezePlan: order lists and nonces are inputs; that a plan is discarded on an account or chain switch, and the wallet prompts themselves, are not modelled.
- FeedRegistration.Plan: a read that fails outside the live check ends the program and is not modelled; the context's controls (known-bad feed, phase-0 rows) are left out.
- DcaPanel.EveryOrderMatchesItsChecks: does not promise a positive amount, because the form does not.
- FeedRegistration.PlanConverges: takes it that feeds keep their decimals and that nothing else was executed for the planned tokens.
- LimitFloor.SignedMinIsClose: starts from the price as a whole number of 1e-18 steps; floating-point parsing, and powers of ten beyond what a double holds exactly, are outside.
- SigningFloor.SigningMinIsHonest: prices are whole numbers of 1e-8 dollars; the rounding of a live price to that is outside.
- Schedule.CustomScheduleAccepted: a tenth of the interval is rounded as an integer; intervals are whole seconds.
- DcaPanel.OwnPricesExactly: the oracle's own readings are an input, so nothing is said of which token they belong to.
- DcaPanel.Drive: each event is handled against the latest render, and effects run before the next change of selection at the latest; batching of several updates into one render is not modelled; the dust check values a minimum at prices in whole 1e-8 dollars.
- ServiceWorker.Serve: cache keys are whole addresses (no Vary header), and one lookup is one step.
- VolumeAdapter.RunSlots: a log belongs to the slot its timestamp falls in; block lookup by time is outside.
- SeedCatalog.SeedsFor: the corrections are an arbitrary function; the catalog build itself and its verdict filter are left out.
- EndpointBaseline.DiffBaselines: AAAA records, alternative names and subjects are not compared by the code either; capturing is left out.
- React rendering, RPC transport, storage, notifications, analytics, deployment scripts and the swap flow: no property beyond reading them.
