/** The parts of a fill both executor contracts have, as they are carried out: one check or one transfer at a time. */
module TradeSteps {
  import opened Ledger
  import opened ExecutorTypes
  import opened Oracle
  import opened Execution

  /** Trigger, balance, approval, and then the fee. */
  method TakeFee(
      d: Deployment, s: State, feeds: FeedTable, now: nat, order: Order, amount: nat) returns (r: Result<nat>)
    ensures r == CheckFunds(d, s, feeds, now, order, amount)
    ensures r.Ok? ==> CanPull(d, s.ledger, order, amount) && r.value <= amount
  {
    hide PriceOk;
    var priceOk :- PriceOk(s.gov.oracleConfigs, feeds, now, order);
    if !priceOk {
      return Err(PriceConditionNotMet);
    }
    var userBalance := s.ledger.Balance(order.tokenIn, order.owner);
    if userBalance < amount {
      return Err(InsufficientBalance);
    }
    var userAllowance := s.ledger.Allowance(order.tokenIn, order.owner, d.self);
    if userAllowance < amount {
      return Err(InsufficientAllowance);
    }
    var scaled :- Checked(amount * FEE_BPS);
    r := Ok(scaled / BPS_DENOMINATOR);
  }

  /** The signed minimum scaled to this fill, raised to the oracle's bound where there is one. */
  method ComputeFloor(
    d: Deployment, gov: Governance, feeds: FeedTable, now: nat, order: Order, amount: nat, net: nat)
    returns (r: Result<nat>)
    requires 0 < order.amountIn && order.maxSlippageBps <= BPS_DENOMINATOR
    ensures r == OutputFloor(d, gov, feeds, now, order, amount, net)
  {
    hide FairValueOut;
    var floor := order.minAmountOut;
    if order.orderType.DCA? {
      var product :- Checked(order.minAmountOut * amount);
      floor := product / order.amountIn;
    }
    if floor == 0 {
      return Err(InvalidMinOutput);
    }
    var fair :- FairValueOut(d.sequencerFeed, gov.tokenUsdFeeds, feeds, now, order.tokenIn, order.tokenOut, net);
    if fair.Some? {
      if fair.value == 0 {
        return Err(OracleValueZero);
      }
      var oracleFloor :- MulDiv(fair.value, BPS_DENOMINATOR - order.maxSlippageBps, BPS_DENOMINATOR);
      if floor < oracleFloor {
        floor := oracleFloor;
      }
    }
    r := Ok(floor);
  }

  /** Pull the amount, send the fee on, approve the rest to the router. */
  method PullInput(d: Deployment, before: Ledger, order: Order, amount: nat, fee: nat) returns (ledger: Ledger)
    requires CanPull(d, before, order, amount) && fee <= amount
    ensures ledger == Fund(d, before, order, amount, fee)
    ensures ledger.Allowance(order.tokenIn, d.self, order.router) == amount - fee
  {
    ledger := before.MoveFrom(order.tokenIn, d.self, order.owner, d.self, amount);
    ledger := ledger.Move(order.tokenIn, d.self, d.feeRecipient, fee);
    ledger := ledger.Approve(order.tokenIn, d.self, order.router, amount - fee);
  }

  /** The router takes its input and sends its output; the approval is withdrawn afterwards. */
  method SwapOnRouter(d: Deployment, before: Ledger, order: Order, swap: Swap) returns (r: Result<Ledger>)
    ensures r == RouterCall(d, before, order, swap)
  {
    if !swap.ok {
      return Err(SwapFailed);
    }
    var approved := before.Allowance(order.tokenIn, d.self, order.router);
    if before.Balance(order.tokenIn, d.self) < swap.spent || approved < swap.spent {
      return Err(SwapFailed);
    }
    var ledger := before.Move(order.tokenIn, d.self, order.router, swap.spent);
    ledger := ledger.Approve(order.tokenIn, d.self, order.router, approved - swap.spent);
    if ledger.Balance(order.tokenOut, order.router) < swap.out {
      return Err(SwapFailed);
    }
    ledger := ledger.Move(order.tokenOut, order.router, d.self, swap.out);
    ledger := ledger.Approve(order.tokenIn, d.self, order.router, 0);
    r := Ok(ledger);
  }

  /** Tokens if they reach the floor; else ETH for wrapped ETH, wrapped again if the owner refuses it; else both. */
  method DeliverOutput(d: Deployment, before: Ledger, order: Order, floor: nat, received: nat, swap: Swap)
    returns (r: Result<Settlement>)
    requires received <= before.Balance(order.tokenOut, d.self)
    ensures r == Deliver(d, before, order, floor, received, swap)
  {
    var ledger, tokenOut, ethOut := before, 0, 0;
    if floor <= received {
      ledger := ledger.Move(order.tokenOut, d.self, order.owner, received);
      tokenOut := received;
    } else if order.tokenOut == d.weth && floor <= swap.eth {
      if swap.ownerTakesEth {
        ethOut := swap.eth;
      } else {
        ledger := ledger.SetBalance(d.weth, d.self, ledger.Balance(d.weth, d.self) + swap.eth);
        ledger := ledger.Move(d.weth, d.self, order.owner, swap.eth);
        tokenOut := swap.eth;
      }
    } else {
      var both :- Checked(received + swap.eth);
      if both < floor {
        return Err(InsufficientOutput);
      }
      if 0 < received {
        ledger := ledger.Move(order.tokenOut, d.self, order.owner, received);
        tokenOut := received;
      }
      if 0 < swap.eth {
        if !swap.ownerTakesEth {
          return Err(ETHTransferFailed);
        }
        ethOut := swap.eth;
      }
    }
    r := Ok(Settlement(ledger, tokenOut, ethOut));
  }

  /** Input left in the contract goes to the owner. */
  method ReturnLeftovers(d: Deployment, before: Ledger, order: Order) returns (ledger: Ledger)
    ensures ledger == RefundDust(d, before, order)
    ensures order.owner != d.self ==> ledger.Balance(order.tokenIn, d.self) == 0
  {
    ledger := before;
    var inputDust := ledger.Balance(order.tokenIn, d.self);
    if 0 < inputDust {
      ledger := ledger.Move(order.tokenIn, d.self, order.owner, inputDust);
    }
  }
}
