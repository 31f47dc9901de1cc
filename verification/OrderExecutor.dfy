/**
 * The executor contract as an object: its storage changes step by step, and a call that reverts puts everything back.
 */
module OrderExecutor {
  import opened Ledger
  import opened ExecutorTypes
  import opened DcaChunks
  import opened Execution
  import opened GovernanceRules
  import opened Machine
  import opened TradeSteps
  import Cancellation

  class OrderExecutor {
    const deployment: Deployment
    var nonceBitmap: map<(Address, nat), set<nat>>
    var cancelledOrders: set<Order>
    var dcaExecutions: map<Order, nat>
    var dcaLastExecution: map<Order, nat>
    var gov: Governance
    // The token contracts' own storage; kept here because a revert undoes transfers too.
    var ledger: Ledger

    constructor (d: Deployment, admin: Address, ledger: Ledger)
      ensures deployment == d
      ensures Model()
          == State(map[], {}, map[], map[], Governance(admin, false, false, {}, {}, map[], map[], map[], map[]), ledger)
      ensures forall order :: Model().Executions(order) == 0 && Model().LastExecution(order) == 0
      ensures forall owner, nonce :: !Model().NonceUsed(owner, nonce)
    {
      deployment := d;
      nonceBitmap, cancelledOrders, dcaExecutions, dcaLastExecution := map[], {}, map[], map[];
      gov := Governance(admin, false, false, {}, {}, map[], map[], map[], map[]);
      this.ledger := ledger;
    }

    function Model(): State
      reads this
    {
      State(nonceBitmap, cancelledOrders, dcaExecutions, dcaLastExecution, gov, ledger)
    }

    method Restore(s: State)
      modifies this
      ensures Model() == s
    {
      nonceBitmap, cancelledOrders := s.nonceBitmap, s.cancelledOrders;
      dcaExecutions, dcaLastExecution := s.dcaExecutions, s.dcaLastExecution;
      gov, ledger := s.gov, s.ledger;
    }

    /** Flips the nonce's bit first and looks at the outcome afterwards. */
    method UseUnorderedNonce(owner: Address, nonce: nat) returns (r: Result<()>)
      modifies this`nonceBitmap
      ensures match Execution.UseNonce(old(Model()), owner, nonce)
              case Ok(after) => r == Ok(()) && Model() == after
              case Err(error) => r == Err(error)
    {
      var wordPos, bit := nonce / 256, nonce % 256;
      var word := Model().Word(owner, wordPos);
      nonceBitmap := nonceBitmap[(owner, wordPos) := if bit in word then word - {bit} else word + {bit}];
      if bit !in nonceBitmap[(owner, wordPos)] {
        return Err(InvalidNonce);
      }
      r := Ok(());
    }

    /** The checks that come before any amount is computed; the first one that fails decides the error. */
    method RequireExecutable(now: nat, caller: Address, order: Order, signer: Address, routerData: RouterData)
      returns (r: Result<()>)
      ensures r == CheckOrder(Model(), now, caller, order, signer, routerData)
    {
      if caller !in gov.executors {
        return Err(NotExecutor);
      }
      if gov.paused {
        return Err(ContractPaused);
      }
      if MAX_ORDER_SLIPPAGE_BPS < order.maxSlippageBps {
        return Err(SlippageTooHigh);
      }
      if order.minAmountOut == 0 {
        return Err(InvalidMinOutput);
      }
      if order.amountIn < MIN_ORDER_AMOUNT {
        return Err(OrderTooSmall);
      }
      if signer != order.owner {
        return Err(InvalidSignature);
      }
      if order in cancelledOrders {
        return Err(OrderCancelled);
      }
      if order.expiry < now {
        return Err(OrderExpired);
      }
      if order.router !in gov.routers {
        return Err(RouterNotWhitelisted);
      }
      if !order.orderType.DCA? {
        if order.routerDataHash.None? {
          return Err(RouterDataRequired);
        }
        if routerData != order.routerDataHash.value {
          return Err(RouterDataMismatch);
        }
      }
      r := Ok(());
    }

    method TakeAmount(
        now: nat, caller: Address, order: Order, signer: Address, routerData: RouterData) returns (r: Result<nat>)
      modifies this`nonceBitmap
      ensures match Admit(old(Model()), now, caller, order, signer, routerData)
              case Ok(admitted) => r == Ok(admitted.1) && Model() == admitted.0
              case Err(error) => r == Err(error)
    {
      hide CheckOrder, UseNonce;
      var _ :- RequireExecutable(now, caller, order, signer, routerData);
      if !order.orderType.DCA? {
        var _ :- UseUnorderedNonce(order.owner, order.nonce);
        return Ok(order.amountIn);
      }
      if order.dcaTotal == 0 {
        return Err(InvalidDCATotal);
      }
      if order.dcaInterval == 0 {
        return Err(InvalidDCAInterval);
      }
      var executionNumber := Model().Executions(order);
      if order.dcaTotal <= executionNumber {
        return Err(DCAComplete);
      }
      var earliest :- Checked(Model().LastExecution(order) + order.dcaInterval);
      if now < earliest {
        return Err(DCAIntervalNotReached);
      }
      if order.amountIn / order.dcaTotal < MIN_ORDER_AMOUNT {
        return Err(DCAChunkTooSmall);
      }
      var product :- Checked(order.amountIn * (executionNumber + 1));
      var previouslyExecuted := order.amountIn * executionNumber / order.dcaTotal;
      ChunkInRange(order.amountIn, order.dcaTotal, executionNumber);
      if executionNumber == order.dcaTotal - 1 {
        r := Ok(order.amountIn - previouslyExecuted);
      } else {
        r := Ok(product / order.dcaTotal - previouslyExecuted);
      }
    }

    method CountDcaFill(order: Order, now: nat)
      modifies this`dcaExecutions, this`dcaLastExecution
      ensures Model() == CountFill(old(Model()), order, now)
    {
      if order.orderType.DCA? {
        dcaExecutions := dcaExecutions[order := Model().Executions(order) + 1];
        dcaLastExecution := dcaLastExecution[order := now];
      }
    }

    /** Moves the tokens: pull, fee, router, delivery, leftovers. The counters go up before anything is paid out. */
    method Trade(order: Order, amount: nat, fee: nat, floor: nat, now: nat, swap: Swap) returns (r: Result<(nat, nat)>)
      requires CanPull(deployment, ledger, order, amount) && fee <= amount
      modifies this`ledger, this`dcaExecutions, this`dcaLastExecution
      ensures match Settle(deployment, old(ledger), order, amount, fee, floor, swap)
              case Ok(settled) =>
                && r == Ok((settled.tokenOut, settled.ethOut))
                && Model() == CountFill(old(Model()).(ledger := settled.ledger), order, now)
              case Err(error) => r == Err(error)
    {
      hide Fund, RouterCall, Deliver, RefundDust;
      ledger := PullInput(deployment, ledger, order, amount, fee);
      var balanceBefore := ledger.Balance(order.tokenOut, deployment.self);
      ledger :- SwapOnRouter(deployment, ledger, order, swap);
      var received :- Checked(ledger.Balance(order.tokenOut, deployment.self) - balanceBefore);
      CountDcaFill(order, now);
      var settled :- DeliverOutput(deployment, ledger, order, floor, received, swap);
      ledger := ReturnLeftovers(deployment, settled.ledger, order);
      r := Ok((settled.tokenOut, settled.ethOut));
    }

    method Fill(
      feeds: FeedTable, now: nat, caller: Address, order: Order, signer: Address, routerData: RouterData, swap: Swap)
      returns (r: Result<Receipt>)
      modifies this
      ensures match Execution.ExecuteOrder(deployment, old(Model()), feeds, now, caller, order, signer, routerData,
          swap)
              case Ok(done) => r == Ok(done.1) && Model() == done.0
              case Err(error) => r == Err(error)
    {
      hide Settle, OutputFloor, CheckFunds, NextChunk, UseNonce;
      ghost var before := Model();
      var amount :- TakeAmount(now, caller, order, signer, routerData);
      Cancellation.FundsIgnoreNonces(deployment, before, Model(), feeds, now, order, amount);
      var fee :- TakeFee(deployment, Model(), feeds, now, order, amount);
      var floor :- ComputeFloor(deployment, gov, feeds, now, order, amount, amount - fee);
      var out :- Trade(order, amount, fee, floor, now, swap);
      r := Ok(Receipt(order, amount, fee, floor, out.0, out.1, now));
    }

    /** A fill is all or nothing. */
    method ExecuteOrder(
      feeds: FeedTable, now: nat, caller: Address, order: Order, signer: Address, routerData: RouterData, swap: Swap)
      returns (r: Result<Receipt>)
      modifies this
      ensures match Execution.ExecuteOrder(deployment, old(Model()), feeds, now, caller, order, signer, routerData,
          swap)
              case Ok(done) => r == Ok(done.1) && Model() == done.0
              case Err(error) => r == Err(error) && Model() == old(Model())
    {
      hide Execution.ExecuteOrder;
      var before := Model();
      r := Fill(feeds, now, caller, order, signer, routerData, swap);
      if r.Err? {
        Restore(before);
      }
    }

    method CancelOrder(caller: Address, order: Order) returns (r: Result<()>)
      modifies this`cancelledOrders
      ensures match Execution.CancelOrder(old(Model()), caller, order)
              case Ok(after) => r == Ok(()) && Model() == after
              case Err(error) => r == Err(error) && Model() == old(Model())
    {
      if caller != order.owner {
        return Err(NotOwner);
      }
      cancelledOrders := cancelledOrders + {order};
      r := Ok(());
    }

    method InvalidateUnorderedNonces(caller: Address, wordPos: nat, mask: set<nat>)
      modifies this`nonceBitmap
      ensures Model() == Execution.InvalidateUnorderedNonces(old(Model()), caller, wordPos, mask)
    {
      nonceBitmap := nonceBitmap[(caller, wordPos) := Model().Word(caller, wordPos) + mask];
    }

    /** Whitelists routers and executors one after the other; a bad entry undoes the ones before it. */
    method Bootstrap(
        caller: Address, code: set<Address>, routers: seq<Address>, executors: seq<Address>) returns (r: Result<()>)
      modifies this`gov
      ensures match GovernanceRules.Bootstrap(old(gov), caller, code, routers, executors)
              case Ok(after) => r == Ok(()) && gov == after
              case Err(error) => r == Err(error) && gov == old(gov)
    {
      hide CheckRouters;
      var before := gov;
      if caller != gov.admin {
        return Err(NotAdmin);
      }
      if gov.bootstrapped {
        return Err(AlreadyBootstrapped);
      }
      gov := gov.(bootstrapped := true);
      r := AddRouters(code, routers);
      if r.Ok? {
        r := AddExecutors(executors);
      }
      if r.Err? {
        gov := before;
      }
    }

    method AddRouters(code: set<Address>, routers: seq<Address>) returns (r: Result<()>)
      modifies this`gov
      ensures r == CheckRouters(code, routers)
      ensures r.Ok? ==> gov == old(gov).(routers := old(gov).routers + (set x | x in routers))
    {
      for i := 0 to |routers|
        invariant gov == old(gov).(routers := old(gov).routers + (set x | x in routers[..i]))
        invariant CheckRouters(code, routers) == CheckRouters(code, routers[i..])
      {
        if routers[i] == ZERO_ADDRESS {
          return Err(ZeroAddress);
        }
        if routers[i] !in code {
          return Err(NotAContract);
        }
        gov := gov.(routers := gov.routers + {routers[i]});
        assert routers[..i + 1] == routers[..i] + [routers[i]];
      }
      assert routers[..|routers|] == routers;
      r := Ok(());
    }

    method AddExecutors(executors: seq<Address>) returns (r: Result<()>)
      modifies this`gov
      ensures r == Check(ZERO_ADDRESS !in executors, ZeroAddress)
      ensures r.Ok? ==> gov == old(gov).(executors := old(gov).executors + (set x | x in executors))
    {
      for i := 0 to |executors|
        invariant gov == old(gov).(executors := old(gov).executors + (set x | x in executors[..i]))
        invariant ZERO_ADDRESS !in executors[..i]
      {
        if executors[i] == ZERO_ADDRESS {
          return Err(ZeroAddress);
        }
        gov := gov.(executors := gov.executors + {executors[i]});
        assert executors[..i + 1] == executors[..i] + [executors[i]];
      }
      assert executors[..|executors|] == executors;
      r := Ok(());
    }

    /** Schedules a change: recorded, not applied. */
    method QueueAction(now: nat, caller: Address, action: Action) returns (r: Result<ActionId>)
      modifies this`gov
      ensures match Queue(old(gov), now, caller, action)
              case Ok(after) => r == Ok(ActionId(action, now)) && gov == after
              case Err(error) => r == Err(error) && gov == old(gov)
    {
      if caller != gov.admin {
        return Err(NotAdmin);
      }
      if NamesZeroAddress(action) {
        return Err(ZeroAddress);
      }
      var id := ActionId(action, now);
      if id in gov.timelock {
        return Err(TimelockAlreadyQueued);
      }
      var readyAt :- Checked(now + Delay(action));
      gov := gov.(timelock := gov.timelock[id := readyAt]);
      r := Ok(id);
    }

    /** Clears the entry before applying the change; if the change fails the entry is back. */
    method ExecuteQueuedAction(
        feeds: FeedTable, now: nat, caller: Address, id: ActionId, action: Action) returns (r: Result<()>)
      modifies this
      ensures match ExecuteAction(deployment, old(Model()), feeds, now, caller, id, action)
              case Ok(after) => r == Ok(()) && Model() == after
              case Err(error) => r == Err(error) && Model() == old(Model())
    {
      hide Perform;
      if caller != gov.admin {
        return Err(NotAdmin);
      }
      if id !in gov.timelock {
        return Err(TimelockNotQueued);
      }
      var executeAfter := gov.timelock[id];
      if now < executeAfter {
        return Err(TimelockNotReady);
      }
      var deadline :- Checked(executeAfter + TIMELOCK_GRACE);
      if deadline < now {
        return Err(TimelockExpired);
      }
      if id.action != action {
        return Err(TimelockHashMismatch);
      }
      var before := Model();
      gov := gov.(timelock := gov.timelock - {id});
      r := ApplyAction(feeds, now, action);
      if r.Err? {
        Restore(before);
      }
    }

    /** The change itself. */
    method ApplyAction(feeds: FeedTable, now: nat, action: Action) returns (r: Result<()>)
      modifies this`gov, this`ledger
      ensures match Perform(deployment, old(Model()), feeds, now, action)
              case Ok(after) => r == Ok(()) && Model() == after
              case Err(error) => r == Err(error)
    {
      hide ValidateFeed, ValidateAnswer;
      r := Ok(());
      match action
      case SetRouter(router, status) =>
        if status {
          gov := gov.(routers := gov.routers + {router});
        } else {
          gov := gov.(routers := gov.routers - {router});
        }
      case SetAdmin(newAdmin) =>
        gov := gov.(admin := newAdmin);
      case Sweep(token) =>
        if token != ZERO_ADDRESS {
          var held := ledger.Balance(token, deployment.self);
          ledger := ledger.Move(token, deployment.self, gov.admin, held);
        }
      case SetTokenUsdFeed(token, feed, tokenDecimals, maxStaleness) =>
        var round :- RequireFeed(feeds, feed);
        if tokenDecimals < 1 || 18 < tokenDecimals {
          return Err(UnexpectedDecimals);
        }
        var _ :- RequireAnswer(round, now);
        var entry := TokenUsdFeed(feed, round.decimals, tokenDecimals, maxStaleness);
        gov := gov.(tokenUsdFeeds := gov.tokenUsdFeeds[token := entry]);
    }

    method RequireFeed(feeds: FeedTable, feed: Address) returns (r: Result<Round>)
      ensures r == ValidateFeed(feeds, feed)
    {
      if feed !in feeds {
        return Err(NoCode);
      }
      if feeds[feed].decimals != 8 && feeds[feed].decimals != 18 {
        return Err(UnexpectedDecimals);
      }
      r := Ok(feeds[feed]);
    }

    method RequireAnswer(round: Round, now: nat) returns (r: Result<()>)
      ensures r == ValidateAnswer(round, now)
    {
      if round.answer <= 0 {
        return Err(InvalidFeedPrice);
      }
      var age :- Elapsed(now, round.updatedAt);
      if FEED_DEAD_AFTER <= age {
        return Err(FeedDead);
      }
      r := Ok(());
    }

    method CancelQueuedAction(caller: Address, id: ActionId) returns (r: Result<()>)
      modifies this`gov
      ensures match CancelAction(old(gov), caller, id)
              case Ok(after) => r == Ok(()) && gov == after
              case Err(error) => r == Err(error) && gov == old(gov)
    {
      if caller != gov.admin {
        return Err(NotAdmin);
      }
      if id !in gov.timelock {
        return Err(TimelockNotQueued);
      }
      gov := gov.(timelock := gov.timelock - {id});
      r := Ok(());
    }

    method ProposeExecutor(now: nat, caller: Address, executor: Address, status: bool) returns (r: Result<()>)
      modifies this`gov
      ensures match GovernanceRules.ProposeExecutor(old(gov), now, caller, executor, status)
              case Ok(after) => r == Ok(()) && gov == after
              case Err(error) => r == Err(error) && gov == old(gov)
    {
      if caller != gov.admin {
        return Err(NotAdmin);
      }
      if executor == ZERO_ADDRESS {
        return Err(ZeroAddress);
      }
      if executor in gov.proposals {
        return Err(ProposalAlreadyExists);
      }
      var executeAfter :- Checked(now + TIMELOCK_EXECUTOR_CHANGE);
      gov := gov.(proposals := gov.proposals[executor := Proposal(status, executeAfter)]);
      r := Ok(());
    }

    method ExecuteExecutorChange(now: nat, caller: Address, executor: Address) returns (r: Result<()>)
      modifies this`gov
      ensures match GovernanceRules.ExecuteExecutorChange(old(gov), now, caller, executor)
              case Ok(after) => r == Ok(()) && gov == after
              case Err(error) => r == Err(error) && gov == old(gov)
    {
      if caller != gov.admin {
        return Err(NotAdmin);
      }
      if executor !in gov.proposals {
        return Err(NoActiveProposal);
      }
      var proposal := gov.proposals[executor];
      if now < proposal.executeAfter {
        return Err(TimelockNotExpired);
      }
      var deadline :- Checked(proposal.executeAfter + TIMELOCK_GRACE);
      if deadline < now {
        return Err(ProposalExpired);
      }
      gov := gov.(proposals := gov.proposals - {executor});
      if proposal.newStatus {
        gov := gov.(executors := gov.executors + {executor});
      } else {
        gov := gov.(executors := gov.executors - {executor});
      }
      r := Ok(());
    }

    method CancelExecutorProposal(caller: Address, executor: Address) returns (r: Result<()>)
      modifies this`gov
      ensures match GovernanceRules.CancelExecutorProposal(old(gov), caller, executor)
              case Ok(after) => r == Ok(()) && gov == after
              case Err(error) => r == Err(error) && gov == old(gov)
    {
      if caller != gov.admin {
        return Err(NotAdmin);
      }
      if executor !in gov.proposals {
        return Err(NoActiveProposal);
      }
      gov := gov.(proposals := gov.proposals - {executor});
      r := Ok(());
    }

    method SetPaused(caller: Address, paused: bool) returns (r: Result<()>)
      modifies this`gov
      ensures match GovernanceRules.SetPaused(old(gov), caller, paused)
              case Ok(after) => r == Ok(()) && gov == after
              case Err(error) => r == Err(error) && gov == old(gov)
    {
      if caller != gov.admin {
        return Err(NotAdmin);
      }
      gov := gov.(paused := paused);
      r := Ok(());
    }

    method SetOracleConfig(
      feeds: FeedTable, now: nat, caller: Address, feed: Address, maxStaleness: nat, minPrice: int, maxPrice: int)
      returns (r: Result<()>)
      modifies this`gov
      ensures match GovernanceRules.SetOracleConfig(old(gov), feeds, now, caller, feed, maxStaleness, minPrice,
          maxPrice)
              case Ok(after) => r == Ok(()) && gov == after
              case Err(error) => r == Err(error) && gov == old(gov)
    {
      hide ValidateFeed, ValidateAnswer;
      if caller != gov.admin {
        return Err(NotAdmin);
      }
      if feed == ZERO_ADDRESS {
        return Err(ZeroAddress);
      }
      var round :- RequireFeed(feeds, feed);
      var _ :- RequireAnswer(round, now);
      var config := OracleConfig(round.decimals, maxStaleness, minPrice, maxPrice);
      gov := gov.(oracleConfigs := gov.oracleConfigs[feed := config]);
      r := Ok(());
    }

    /** Any transaction at all takes the contract to the state the transition system says. */
    method Transact(tx: Tx)
      modifies this
      ensures Model() == Step(deployment, old(Model()), tx)
    {
      hide Execution.ExecuteOrder, Execution.CancelOrder, Execution.InvalidateUnorderedNonces, CallToken, Queue,
        ExecuteAction, CancelAction, GovernanceRules.Bootstrap, GovernanceRules.ProposeExecutor,
        GovernanceRules.ExecuteExecutorChange, GovernanceRules.CancelExecutorProposal, GovernanceRules.SetPaused,
        GovernanceRules.SetOracleConfig;
      match tx.call
      case Execute(caller, order, signer, routerData, swap) =>
        var _ := ExecuteOrder(tx.feeds, tx.now, caller, order, signer, routerData, swap);
      case Cancel(caller, order) =>
        var _ := CancelOrder(caller, order);
      case Invalidate(caller, wordPos, mask) =>
        InvalidateUnorderedNonces(caller, wordPos, mask);
      case Token(token, call) =>
        var moved := CallToken(deployment, ledger, token, call);
        if moved.Ok? {
          ledger := moved.value;
        }
      case Admin(caller, QueueAction(action)) =>
        var _ := QueueAction(tx.now, caller, action);
      case Admin(caller, RunAction(id, action)) =>
        var _ := ExecuteQueuedAction(tx.feeds, tx.now, caller, id, action);
      case Admin(caller, Setup(code, routers, executors)) =>
        var _ := Bootstrap(caller, code, routers, executors);
      case Admin(caller, DropAction(id)) =>
        var _ := CancelQueuedAction(caller, id);
      case Admin(caller, Propose(executor, status)) =>
        var _ := ProposeExecutor(tx.now, caller, executor, status);
      case Admin(caller, RunProposal(executor)) =>
        var _ := ExecuteExecutorChange(tx.now, caller, executor);
      case Admin(caller, DropProposal(executor)) =>
        var _ := CancelExecutorProposal(caller, executor);
      case Admin(caller, SwitchPause(paused)) =>
        var _ := SetPaused(caller, paused);
      case Admin(caller, ConfigureOracle(feed, maxStaleness, minPrice, maxPrice)) =>
        var _ := SetOracleConfig(tx.feeds, tx.now, caller, feed, maxStaleness, minPrice, maxPrice);
    }
  }
}
