/**
 * What one `executeOrder` call does, as a function of the state before it: the reason it reverts or the state after.
 */
module Execution {
  import opened Ledger
  import opened ExecutorTypes
  import opened Oracle
  import opened DcaChunks

  /** The whitelisted router's behaviour during one call: what it takes of the approved input and what it sends back. */
  datatype Swap = Swap(ok: bool, spent: nat, out: nat, eth: nat, ownerTakesEth: bool)

  /** A successful fill. */
  datatype Receipt = Receipt(order: Order, pulled: nat, fee: nat, floor: nat, tokenOut: nat, ethOut: nat, at: nat)

  datatype Settlement = Settlement(ledger: Ledger, tokenOut: nat, ethOut: nat)

  /** The checks before any amount is computed, in the contract's order. */
  function CheckOrder(
      s: State, now: nat, caller: Address, order: Order, signer: Address, routerData: RouterData): Result<()> {
    var _ :- Check(caller in s.gov.executors, NotExecutor);
    var _ :- Check(!s.gov.paused, ContractPaused);
    var _ :- Check(order.maxSlippageBps <= MAX_ORDER_SLIPPAGE_BPS, SlippageTooHigh);
    var _ :- Check(order.minAmountOut != 0, InvalidMinOutput);
    var _ :- Check(MIN_ORDER_AMOUNT <= order.amountIn, OrderTooSmall);
    var _ :- Check(signer == order.owner, InvalidSignature);
    var _ :- Check(order !in s.cancelledOrders, OrderCancelled);
    var _ :- Check(now <= order.expiry, OrderExpired);
    var _ :- Check(order.router in s.gov.routers, RouterNotWhitelisted);
    if order.orderType.DCA? then Ok(())
    else
      var _ :- Check(order.routerDataHash.Some?, RouterDataRequired);
      Check(routerData == order.routerDataHash.value, RouterDataMismatch)
  }

  /** Schedule checks and the size of the next fill of a DCA order. */
  function NextChunk(s: State, now: nat, order: Order): Result<nat> {
    var _ :- Check(order.dcaTotal != 0, InvalidDCATotal);
    var _ :- Check(order.dcaInterval != 0, InvalidDCAInterval);
    var done := s.Executions(order);
    var _ :- Check(done < order.dcaTotal, DCAComplete);
    var earliest :- Checked(s.LastExecution(order) + order.dcaInterval);
    var _ :- Check(earliest <= now, DCAIntervalNotReached);
    var _ :- Check(MIN_ORDER_AMOUNT <= order.amountIn / order.dcaTotal, DCAChunkTooSmall);
    var _ :- Checked(order.amountIn * (done + 1));
    ChunkInRange(order.amountIn, order.dcaTotal, done);
    Ok(ChunkSize(order.amountIn, order.dcaTotal, done))
  }

  function Flip(word: set<nat>, bit: nat): set<nat> {
    if bit in word then word - {bit} else word + {bit}
  }

  /** Flip the nonce's bit and revert when that cleared it. */
  function UseNonce(s: State, owner: Address, nonce: nat): Result<State> {
    var flipped := Flip(s.Word(owner, nonce / 256), nonce % 256);
    var _ :- Check(nonce % 256 in flipped, InvalidNonce);
    Ok(s.(nonceBitmap := s.nonceBitmap[(owner, nonce / 256) := flipped]))
  }

  /** The amount this call moves, and the state with the nonce of a one-shot order consumed. */
  function Admit(s: State, now: nat, caller: Address, order: Order, signer: Address, routerData: RouterData)
    : Result<(State, nat)>
  {
    var _ :- CheckOrder(s, now, caller, order, signer, routerData);
    if order.orderType.DCA? then
      var amount :- NextChunk(s, now, order);
      Ok((s, amount))
    else
      var used :- UseNonce(s, order.owner, order.nonce);
      Ok((used, order.amountIn))
  }

  /** The output this fill must reach: the larger of the scaled signed minimum and the oracle bound. */
  function OutputFloor(
      d: Deployment, gov: Governance, feeds: FeedTable, now: nat, order: Order, amount: nat, net: nat): Result<nat>
    requires 0 < order.amountIn && order.maxSlippageBps <= BPS_DENOMINATOR
  {
    var scaledMin :- if order.orderType.DCA? then
                       (var product :- Checked(order.minAmountOut * amount); Ok(product / order.amountIn))
                     else Ok(order.minAmountOut);
    var _ :- Check(scaledMin != 0, InvalidMinOutput);
    var fair :- FairValueOut(d.sequencerFeed, gov.tokenUsdFeeds, feeds, now, order.tokenIn, order.tokenOut, net);
    if fair.None? then Ok(scaledMin)
    else
      var _ :- Check(fair.value != 0, OracleValueZero);
      var oracleFloor :- MulDiv(fair.value, BPS_DENOMINATOR - order.maxSlippageBps, BPS_DENOMINATOR);
      Ok(if scaledMin < oracleFloor then oracleFloor else scaledMin)
  }

  /** The owner has the amount and has approved it. */
  predicate CanPull(d: Deployment, l: Ledger, order: Order, amount: nat) {
    amount <= l.Balance(order.tokenIn, order.owner) && amount <= l.Allowance(order.tokenIn, order.owner, d.self)
  }

  /** Input pulled, fee sent, router approved. */
  function Fund(d: Deployment, l: Ledger, order: Order, amount: nat, fee: nat): (funded: Ledger)
    requires CanPull(d, l, order, amount) && fee <= amount
  {
    l.MoveFrom(order.tokenIn, d.self, order.owner, d.self, amount)
     .Move(order.tokenIn, d.self, d.feeRecipient, fee)
     .Approve(order.tokenIn, d.self, order.router, amount - fee)
  }

  /** The router call: it can take no more than was approved and send no more than it has. */
  function RouterCall(d: Deployment, l: Ledger, order: Order, swap: Swap): Result<Ledger> {
    var _ :- Check(&& swap.ok
                   && swap.spent <= l.Balance(order.tokenIn, d.self)
                   && swap.spent <= l.Allowance(order.tokenIn, d.self, order.router), SwapFailed);
    var taken := l.MoveFrom(order.tokenIn, order.router, d.self, order.router, swap.spent);
    var _ :- Check(swap.out <= taken.Balance(order.tokenOut, order.router), SwapFailed);
    Ok(taken.Move(order.tokenOut, order.router, d.self, swap.out)
            .Approve(order.tokenIn, d.self, order.router, 0))
  }

  /** Output goes to the owner if it reaches the floor, as tokens, as ETH for wrapped ETH, or as both together. */
  function Deliver(d: Deployment, l: Ledger, order: Order, floor: nat, received: nat, swap: Swap): Result<Settlement>
    requires received <= l.Balance(order.tokenOut, d.self)
  {
    var paid := l.Move(order.tokenOut, d.self, order.owner, received);
    if floor <= received then Ok(Settlement(paid, received, 0))
    else if order.tokenOut == d.weth && floor <= swap.eth then
      if swap.ownerTakesEth then Ok(Settlement(l, 0, swap.eth))
      else // wrapped again and sent as a token
        var wrapped := l.SetBalance(d.weth, d.self, l.Balance(d.weth, d.self) + swap.eth);
        Ok(Settlement(wrapped.Move(d.weth, d.self, order.owner, swap.eth), swap.eth, 0))
    else
      var both :- Checked(received + swap.eth);
      var _ :- Check(floor <= both, InsufficientOutput);
      var _ :- Check(swap.eth == 0 || swap.ownerTakesEth, ETHTransferFailed);
      Ok(Settlement(if 0 < received then paid else l, received, swap.eth))
  }

  /** Whatever input is left in the contract goes back to the owner. */
  function RefundDust(d: Deployment, l: Ledger, order: Order): Ledger {
    var dust := l.Balance(order.tokenIn, d.self);
    if dust == 0 then l else l.Move(order.tokenIn, d.self, order.owner, dust)
  }

  /** Pull, swap and pay out. */
  function PayOut(
      d: Deployment, l: Ledger, order: Order, amount: nat, fee: nat, floor: nat, swap: Swap): Result<Settlement>
    requires CanPull(d, l, order, amount) && fee <= amount
  {
    var funded := Fund(d, l, order, amount, fee);
    var swapped :- RouterCall(d, funded, order, swap);
    var received :- Checked(swapped.Balance(order.tokenOut, d.self) - funded.Balance(order.tokenOut, d.self));
    Deliver(d, swapped, order, floor, received, swap)
  }

  function Settle(
      d: Deployment, l: Ledger, order: Order, amount: nat, fee: nat, floor: nat, swap: Swap): Result<Settlement>
    requires CanPull(d, l, order, amount) && fee <= amount
  {
    var settled :- PayOut(d, l, order, amount, fee, floor, swap);
    Ok(settled.(ledger := RefundDust(d, settled.ledger, order)))
  }

  function CountFill(s: State, order: Order, now: nat): State {
    if order.orderType.DCA? then
      s.(dcaExecutions := s.dcaExecutions[order := s.Executions(order) + 1],
         dcaLastExecution := s.dcaLastExecution[order := now])
    else s
  }

  /** Trigger met, amount available and approved; then the fee on it. */
  function CheckFunds(d: Deployment, s: State, feeds: FeedTable, now: nat, order: Order, amount: nat): (r: Result<nat>)
    ensures r.Ok? ==>
              && r.value == amount * FEE_BPS / BPS_DENOMINATOR <= amount
              && CanPull(d, s.ledger, order, amount)
  {
    var priceOk :- PriceOk(s.gov.oracleConfigs, feeds, now, order);
    var _ :- Check(priceOk, PriceConditionNotMet);
    var _ :- Check(amount <= s.ledger.Balance(order.tokenIn, order.owner), InsufficientBalance);
    var _ :- Check(amount <= s.ledger.Allowance(order.tokenIn, order.owner, d.self), InsufficientAllowance);
    var scaled :- Checked(amount * FEE_BPS);
    Ok(scaled / BPS_DENOMINATOR)
  }

  function ExecuteOrder(
    d: Deployment, s: State, feeds: FeedTable, now: nat,
    caller: Address, order: Order, signer: Address, routerData: RouterData, swap: Swap): Result<(State, Receipt)>
  {
    var admitted :- Admit(s, now, caller, order, signer, routerData);
    var (admittedState, amount) := admitted;
    var fee :- CheckFunds(d, s, feeds, now, order, amount);
    var floor :- OutputFloor(d, s.gov, feeds, now, order, amount, amount - fee);
    var settled :- Settle(d, s.ledger, order, amount, fee, floor, swap);
    Ok((CountFill(admittedState.(ledger := settled.ledger), order, now),
        Receipt(order, amount, fee, floor, settled.tokenOut, settled.ethOut, now)))
  }

  /** A fill that goes through: the amount it was admitted for, and everything it leaves alone. */
  lemma FillFrame(
    d: Deployment, s: State, feeds: FeedTable, now: nat,
    caller: Address, order: Order, signer: Address, routerData: RouterData, swap: Swap)
    requires ExecuteOrder(d, s, feeds, now, caller, order, signer, routerData, swap).Ok?
    ensures
      var (after, r) := ExecuteOrder(d, s, feeds, now, caller, order, signer, routerData, swap).value;
      var admitted := Admit(s, now, caller, order, signer, routerData);
      && admitted.Ok?
      && r.order == order && r.at == now && r.pulled == admitted.value.1
      && CanPull(d, s.ledger, order, r.pulled)
      && after == CountFill(admitted.value.0.(ledger := after.ledger), order, now)
  {
    hide NextChunk, UseNonce, OutputFloor, Settle, Oracle.PriceOk;
  }

  /** How a fill's fee, floor and output came about. */
  lemma FillDetails(
    d: Deployment, s: State, feeds: FeedTable, now: nat,
    caller: Address, order: Order, signer: Address, routerData: RouterData, swap: Swap)
    requires ExecuteOrder(d, s, feeds, now, caller, order, signer, routerData, swap).Ok?
    ensures
      var (after, r) := ExecuteOrder(d, s, feeds, now, caller, order, signer, routerData, swap).value;
      && r.order == order
      && order.maxSlippageBps <= MAX_ORDER_SLIPPAGE_BPS && MIN_ORDER_AMOUNT <= order.amountIn
      && CanPull(d, s.ledger, order, r.pulled)
      && r.fee == r.pulled * FEE_BPS / BPS_DENOMINATOR && r.fee <= r.pulled
      && OutputFloor(d, s.gov, feeds, now, order, r.pulled, r.pulled - r.fee) == Ok(r.floor)
      && Settle(d, s.ledger, order, r.pulled, r.fee, r.floor, swap)
          == Ok(Settlement(after.ledger, r.tokenOut, r.ethOut))
  {
    hide NextChunk, UseNonce, OutputFloor, Settle, Oracle.PriceOk;
  }

  /** An admitted DCA call: which chunk it is and that its time has come. */
  lemma AdmittedDca(s: State, now: nat, caller: Address, order: Order, signer: Address, routerData: RouterData)
    requires order.orderType.DCA? && Admit(s, now, caller, order, signer, routerData).Ok?
    ensures
      var admitted, done := Admit(s, now, caller, order, signer, routerData).value, s.Executions(order);
      && admitted.0 == s
      && done < order.dcaTotal
      && admitted.1 == ChunkSize(order.amountIn, order.dcaTotal, done)
      && s.LastExecution(order) + order.dcaInterval <= now <= order.expiry
      && 0 < order.dcaInterval
      && order.amountIn * (done + 1) < WORD
      && MIN_ORDER_AMOUNT <= order.amountIn / order.dcaTotal
  {
  }

  /** The owner withdraws one order for good. */
  function CancelOrder(s: State, caller: Address, order: Order): Result<State> {
    var _ :- Check(caller == order.owner, NotOwner);
    Ok(s.(cancelledOrders := s.cancelledOrders + {order}))
  }

  /** The caller marks any subset of one word of their nonces as used. */
  function InvalidateUnorderedNonces(s: State, caller: Address, wordPos: nat, mask: set<nat>): State {
    s.(nonceBitmap := s.nonceBitmap[(caller, wordPos) := s.Word(caller, wordPos) + mask])
  }
}
