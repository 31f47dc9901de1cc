/** The keeper's view of whether an order can execute, against what execution really checks before it trades. */
module Checker {
  import opened Ledger
  import opened ExecutorTypes
  import opened DcaChunks
  import opened FloorDivision
  import opened Oracle
  import opened Execution
  import Custody

  /** The view: an answer, or a revert of its own where arithmetic or a feed read fails. */
  function CanExecute(
      d: Deployment, s: State, feeds: FeedTable, now: nat, order: Order, signer: Address): Result<bool> {
    if || signer != order.owner || order in s.cancelledOrders || order.expiry < now
       || MAX_ORDER_SLIPPAGE_BPS < order.maxSlippageBps || order.router !in s.gov.routers then Ok(false)
    else if !order.orderType.DCA? && s.NonceUsed(order.owner, order.nonce) then Ok(false)
    else
      var due :- DcaDue(s, now, order);
      if !due then Ok(false)
      else
        var priceOk :- PriceOk(s.gov.oracleConfigs, feeds, now, order);
        if !priceOk then Ok(false)
        else Ok(&& Required(order) <= s.ledger.Balance(order.tokenIn, order.owner)
                && Required(order) <= s.ledger.Allowance(order.tokenIn, order.owner, d.self))
  }

  function DcaDue(s: State, now: nat, order: Order): Result<bool> {
    if !order.orderType.DCA? then Ok(true)
    else if order.dcaTotal == 0 || order.dcaInterval == 0 || order.dcaTotal <= s.Executions(order) then Ok(false)
    else
      var earliest :- Checked(s.LastExecution(order) + order.dcaInterval);
      Ok(earliest <= now)
  }

  /** The amount the view looks for: the even share, not the chunk whose turn it is. */
  function Required(order: Order): nat {
    if order.orderType.DCA? then PerChunk(order.amountIn, order.dcaTotal) else order.amountIn
  }

  /** Execution gets as far as computing the output floor and trading. */
  predicate ReachesTrade(
    d: Deployment, s: State, feeds: FeedTable, now: nat, caller: Address, order: Order, signer: Address,
    routerData: RouterData)
  {
    var admitted := Admit(s, now, caller, order, signer, routerData);
    admitted.Ok? && CheckFunds(d, s, feeds, now, order, admitted.value.1).Ok?
  }

  /** What the view leaves out. */
  predicate LeftToExecution(d: Deployment, s: State, caller: Address, order: Order, routerData: RouterData) {
    && caller in s.gov.executors && !s.gov.paused
    && order.minAmountOut != 0 && MIN_ORDER_AMOUNT <= order.amountIn
    && (!order.orderType.DCA? ==> order.routerDataHash == Some(routerData) && order.amountIn * FEE_BPS < WORD)
    && (order.orderType.DCA? ==>
          && s.Executions(order) < order.dcaTotal
          && MIN_ORDER_AMOUNT <= PerChunk(order.amountIn, order.dcaTotal)
          && order.amountIn * (s.Executions(order) + 1) < WORD
          && var chunk := ChunkSize(order.amountIn, order.dcaTotal, s.Executions(order));
          && chunk * FEE_BPS < WORD
          && chunk <= s.ledger.Balance(order.tokenIn, order.owner)
          && chunk <= s.ledger.Allowance(order.tokenIn, order.owner, d.self))
  }

  lemma DcaAdmission(s: State, now: nat, caller: Address, order: Order, signer: Address, routerData: RouterData)
    requires order.orderType.DCA?
    ensures Admit(s, now, caller, order, signer, routerData).Ok?
       <==> && CheckOrder(s, now, caller, order, signer, routerData).Ok?
            && DcaDue(s, now, order) == Ok(true)
            && MIN_ORDER_AMOUNT <= PerChunk(order.amountIn, order.dcaTotal)
            && order.amountIn * (s.Executions(order) + 1) < WORD
    ensures Admit(s, now, caller, order, signer, routerData).Ok? ==>
              && s.Executions(order) < order.dcaTotal
              && Admit(s, now, caller, order, signer, routerData).value.1
                  == ChunkSize(order.amountIn, order.dcaTotal, s.Executions(order))
  {
    hide CheckOrder;
  }

  lemma OneShotAdmission(s: State, now: nat, caller: Address, order: Order, signer: Address, routerData: RouterData)
    requires !order.orderType.DCA?
    ensures Admit(s, now, caller, order, signer, routerData).Ok?
       <==> CheckOrder(s, now, caller, order, signer, routerData).Ok? && !s.NonceUsed(order.owner, order.nonce)
    ensures Admit(s, now, caller, order, signer, routerData).Ok? ==>
              Admit(s, now, caller, order, signer, routerData).value.1 == order.amountIn
  {
    hide CheckOrder;
  }

  /**
   * The view against execution, exactly: execution reaches the trade if and only if the view says yes and the
   * conditions it leaves out hold as well. In particular the view never says no to an order that could execute.
   */
  lemma CheckerIsExact(
    d: Deployment, s: State, feeds: FeedTable, now: nat, caller: Address, order: Order, signer: Address,
    routerData: RouterData)
    ensures ReachesTrade(d, s, feeds, now, caller, order, signer, routerData)
       <==> CanExecute(d, s, feeds, now, order, signer) == Ok(true) && LeftToExecution(d, s, caller, order, routerData)
  {
    hide Admit, PriceOk;
    if order.orderType.DCA? {
      DcaAdmission(s, now, caller, order, signer, routerData);
      if s.Executions(order) < order.dcaTotal {
        ChunkIsFloorOrCeiling(order.amountIn, order.dcaTotal, s.Executions(order));
        ChunkInRange(order.amountIn, order.dcaTotal, s.Executions(order));
      }
    } else {
      OneShotAdmission(s, now, caller, order, signer, routerData);
    }
  }

  /** The amount an order moves now. */
  function AmountDue(s: State, order: Order): nat
    requires order.orderType.DCA? ==> s.Executions(order) < order.dcaTotal
  {
    if order.orderType.DCA? then
      ChunkInRange(order.amountIn, order.dcaTotal, s.Executions(order));
      ChunkSize(order.amountIn, order.dcaTotal, s.Executions(order))
    else order.amountIn
  }

  /** A DCA order's next fill is due, and its numbers stay in range. */
  predicate Due(s: State, now: nat, order: Order) {
    && 0 < order.dcaInterval && s.Executions(order) < order.dcaTotal
    && s.LastExecution(order) + order.dcaInterval <= now
    && s.LastExecution(order) + order.dcaInterval < WORD
    && order.amountIn * (s.Executions(order) + 1) < WORD
    && 10_000 <= order.amountIn / order.dcaTotal
  }

  /** Everything an order needs to be traded, in terms of the order, the storage and the feed's own answer. */
  predicate Tradable(
    d: Deployment, s: State, feeds: FeedTable, now: nat, caller: Address, order: Order, signer: Address,
    routerData: RouterData)
  {
    && caller in s.gov.executors && !s.gov.paused
    && signer == order.owner && order !in s.cancelledOrders && now <= order.expiry
    && order.router in s.gov.routers
    && order.maxSlippageBps <= 500 && 0 < order.minAmountOut && 10_000 <= order.amountIn
    && (if order.orderType.DCA? then Due(s, now, order)
        else order.routerDataHash == Some(routerData) && !s.NonceUsed(order.owner, order.nonce))
    && (order.priceFeed == ZERO_ADDRESS || Triggered(s.gov.oracleConfigs, feeds, now, order))
    && var amount := AmountDue(s, order);
    && amount * 10 < WORD
    && amount <= s.ledger.Balance(order.tokenIn, order.owner)
    && amount <= s.ledger.Allowance(order.tokenIn, order.owner, d.self)
  }

  /**
   * An order reaches the trade if and only if all of that holds: a limit, stop-loss or DCA order that is authorised,
   * due and funded, and whose trigger is met, always does.
   */
  lemma ReachesTradeExactly(
    d: Deployment, s: State, feeds: FeedTable, now: nat, caller: Address, order: Order, signer: Address,
    routerData: RouterData)
    ensures ReachesTrade(d, s, feeds, now, caller, order, signer, routerData)
       <==> Tradable(d, s, feeds, now, caller, order, signer, routerData)
  {
    hide Admit, PriceOk, Triggered, ChunkSize;
    PriceOkExactly(s.gov.oracleConfigs, feeds, now, order);
    if order.orderType.DCA? {
      DcaAdmission(s, now, caller, order, signer, routerData);
      if s.Executions(order) < order.dcaTotal {
        ChunkInRange(order.amountIn, order.dcaTotal, s.Executions(order));
      }
    } else {
      OneShotAdmission(s, now, caller, order, signer, routerData);
    }
  }

  /** What is wrong with the order or its turn, in the order in which it is looked at. */
  function OrderObstacle(
      s: State, now: nat, caller: Address, order: Order, signer: Address, routerData: RouterData): Option<Revert> {
    var dca, k := order.orderType.DCA?, s.Executions(order);
    if caller !in s.gov.executors then Some(NotExecutor)
    else if s.gov.paused then Some(ContractPaused)
    else if 500 < order.maxSlippageBps then Some(SlippageTooHigh)
    else if order.minAmountOut == 0 then Some(InvalidMinOutput)
    else if order.amountIn < 10_000 then Some(OrderTooSmall)
    else if signer != order.owner then Some(InvalidSignature)
    else if order in s.cancelledOrders then Some(OrderCancelled)
    else if order.expiry < now then Some(OrderExpired)
    else if order.router !in s.gov.routers then Some(RouterNotWhitelisted)
    else if !dca && order.routerDataHash.None? then Some(RouterDataRequired)
    else if !dca && order.routerDataHash.value != routerData then Some(RouterDataMismatch)
    else if !dca && s.NonceUsed(order.owner, order.nonce) then Some(InvalidNonce)
    else if dca && order.dcaTotal == 0 then Some(InvalidDCATotal)
    else if dca && order.dcaInterval == 0 then Some(InvalidDCAInterval)
    else if dca && order.dcaTotal <= k then Some(DCAComplete)
    else if dca && WORD <= s.LastExecution(order) + order.dcaInterval then Some(Panic)
    else if dca && now < s.LastExecution(order) + order.dcaInterval then Some(DCAIntervalNotReached)
    else if dca && PerChunk(order.amountIn, order.dcaTotal) < 10_000 then Some(DCAChunkTooSmall)
    else if dca && WORD <= order.amountIn * (k + 1) then Some(Panic)
    else None
  }

  /** ... and then with its trigger and its funds. */
  function FundsObstacle(
      d: Deployment, s: State, feeds: FeedTable, now: nat, order: Order, amount: nat): Option<Revert> {
    var trigger := order.priceFeed != ZERO_ADDRESS;
    if trigger && order.priceFeed !in feeds then Some(NoCode)
    else if trigger && 0 < feeds[order.priceFeed].answer && now < feeds[order.priceFeed].updatedAt then Some(Panic)
    else if trigger && !Triggered(s.gov.oracleConfigs, feeds, now, order) then Some(PriceConditionNotMet)
    else if s.ledger.Balance(order.tokenIn, order.owner) < amount then Some(InsufficientBalance)
    else if s.ledger.Allowance(order.tokenIn, order.owner, d.self) < amount then Some(InsufficientAllowance)
    else if WORD <= amount * 10 then Some(Panic)
    else None
  }

  lemma AdmissionRefusal(s: State, now: nat, caller: Address, order: Order, signer: Address, routerData: RouterData)
    ensures
      var obstacle, r := OrderObstacle(s, now, caller, order, signer, routerData),
                         Admit(s, now, caller, order, signer, routerData);
      && (obstacle.None? <==> r.Ok?)
      && (obstacle.Some? ==> r == Err(obstacle.value))
  {
    hide ChunkSize;
  }

  lemma FundsRefusal(d: Deployment, s: State, feeds: FeedTable, now: nat, order: Order, amount: nat)
    ensures
      var obstacle, r := FundsObstacle(d, s, feeds, now, order, amount), CheckFunds(d, s, feeds, now, order, amount);
      && (obstacle.None? <==> r.Ok?)
      && (obstacle.Some? ==> r == Err(obstacle.value))
  {
    hide PriceOk, Triggered;
    PriceOkExactly(s.gov.oracleConfigs, feeds, now, order);
    if PriceOk(s.gov.oracleConfigs, feeds, now, order).Err? {
      PriceOkFails(s.gov.oracleConfigs, feeds, now, order);
    }
  }

  lemma PriceOkFails(configs: map<Address, OracleConfig>, feeds: FeedTable, now: nat, order: Order)
    requires PriceOk(configs, feeds, now, order).Err?
    ensures PriceOk(configs, feeds, now, order).error == if order.priceFeed !in feeds then NoCode else Panic
  {
  }

  /**
   * A call is refused for the first obstacle there is, first with the order, then with its trigger and funds; and there
   * is none exactly if the order is tradable.
   */
  lemma FirstObstacleDecides(
    d: Deployment, s: State, feeds: FeedTable, now: nat, caller: Address, order: Order, signer: Address,
    routerData: RouterData, swap: Swap)
    ensures
      var r := ExecuteOrder(d, s, feeds, now, caller, order, signer, routerData, swap);
      match OrderObstacle(s, now, caller, order, signer, routerData)
      case Some(error) => r == Err(error) && !Tradable(d, s, feeds, now, caller, order, signer, routerData)
      case None =>
        && (order.orderType.DCA? ==> s.Executions(order) < order.dcaTotal)
        && match FundsObstacle(d, s, feeds, now, order, AmountDue(s, order))
           case Some(error) => r == Err(error) && !Tradable(d, s, feeds, now, caller, order, signer, routerData)
           case None => Tradable(d, s, feeds, now, caller, order, signer, routerData)
  {
    hide Admit, CheckFunds, OrderObstacle, FundsObstacle, OutputFloor, Settle, Tradable, AmountDue;
    AdmissionRefusal(s, now, caller, order, signer, routerData);
    ReachesTradeExactly(d, s, feeds, now, caller, order, signer, routerData);
    var admitted := Admit(s, now, caller, order, signer, routerData);
    if admitted.Ok? {
      AmountIsDue(s, now, caller, order, signer, routerData);
      FundsRefusal(d, s, feeds, now, order, admitted.value.1);
    }
  }

  /**
   * An order fills if and only if it is tradable, there is a floor for it, and the swap suffices for that floor: the
   * contract has no other reason to refuse.
   */
  lemma FillsExactly(
    d: Deployment, s: State, feeds: FeedTable, now: nat, caller: Address, order: Order, signer: Address,
    routerData: RouterData, swap: Swap)
    ensures ExecuteOrder(d, s, feeds, now, caller, order, signer, routerData, swap).Ok?
       <==> && Tradable(d, s, feeds, now, caller, order, signer, routerData)
            && var amount := AmountDue(s, order);
            var fee := amount / 1000;
            var floor := OutputFloor(d, s.gov, feeds, now, order, amount, amount - fee);
            floor.Ok? && Custody.SwapSuffices(d, s.ledger, order, amount, fee, floor.value, swap)
  {
    hide Admit, PriceOk, Triggered, ChunkSize, Due, OutputFloor, Settle, Custody.SwapSuffices;
    ReachesTradeExactly(d, s, feeds, now, caller, order, signer, routerData);
    var admitted := Admit(s, now, caller, order, signer, routerData);
    if admitted.Ok? && CheckFunds(d, s, feeds, now, order, admitted.value.1).Ok? {
      AmountIsDue(s, now, caller, order, signer, routerData);
      var amount := AmountDue(s, order);
      var fee := CheckFunds(d, s, feeds, now, order, amount).value;
      DivUnique(amount * FEE_BPS, BPS_DENOMINATOR, amount / 1000);
      var floor := OutputFloor(d, s.gov, feeds, now, order, amount, amount - fee);
      if floor.Ok? {
        Custody.SettlesExactly(d, s.ledger, order, amount, fee, floor.value, swap);
      }
    }
  }

  lemma AmountIsDue(s: State, now: nat, caller: Address, order: Order, signer: Address, routerData: RouterData)
    requires Admit(s, now, caller, order, signer, routerData).Ok?
    ensures order.orderType.DCA? ==> s.Executions(order) < order.dcaTotal
    ensures Admit(s, now, caller, order, signer, routerData).value.1 == AmountDue(s, order)
  {
    hide Admit, ChunkSize;
    if order.orderType.DCA? {
      DcaAdmission(s, now, caller, order, signer, routerData);
    } else {
      OneShotAdmission(s, now, caller, order, signer, routerData);
    }
  }

  /**
   * Where the view and execution disagree about funds: a DCA chunk of the rounded-up size, with a balance or an
   * approval of exactly the rounded-down one. One unit more is always enough.
   */
  lemma FundsGapIsOneUnit(total: nat, n: nat, k: nat, funds: nat)
    requires k < n
    ensures PerChunk(total, n) <= funds && funds < ChunkSize(total, n, k)
       <==> funds == PerChunk(total, n) && ChunkSize(total, n, k) == PerChunk(total, n) + 1
    ensures PerChunk(total, n) + 1 <= funds ==> ChunkSize(total, n, k) <= funds
  {
    ChunkIsFloorOrCeiling(total, n, k);
  }

  /** The gap is real: of three fills of 30,002 units the last takes one more than the view looks for. */
  lemma FundsGapExists()
    ensures PerChunk(30_002, 3) == 10_000 && ChunkSize(30_002, 3, 2) == 10_001
  {
  }
}
