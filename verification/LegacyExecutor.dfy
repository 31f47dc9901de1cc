/**
 * The previous executor: one sequential nonce per owner, and a one-wei floor where the scaled minimum rounds to
 * nothing.
 */
module LegacyExecutor {
  import opened Ledger
  import opened ExecutorTypes
  import opened DcaChunks
  import opened FloorDivision
  import opened Oracle
  import opened Execution
  import opened Machine
  import opened Accounting
  import Cancellation
  import Checker
  import Custody

  /** The shared order book plus the owner's running nonce and the nonce below which orders are void. */
  datatype Legacy = Legacy(core: State, nonces: map<Address, nat>, invalidated: map<Address, nat>) {
    function Nonce(owner: Address): nat {
      if owner in nonces then nonces[owner] else 0
    }

    function Invalidated(owner: Address): nat {
      if owner in invalidated then invalidated[owner] else 0
    }
  }

  function CheckLegacyOrder(
      l: Legacy, now: nat, caller: Address, order: Order, signer: Address, routerData: RouterData): Result<()> {
    var s := l.core;
    var _ :- Check(caller in s.gov.executors, NotExecutor);
    var _ :- Check(!s.gov.paused, ContractPaused);
    var _ :- Check(order.minAmountOut != 0, InvalidMinOutput);
    var _ :- Check(MIN_ORDER_AMOUNT <= order.amountIn, OrderTooSmall);
    var _ :- Check(signer == order.owner, InvalidSignature);
    var _ :- Check(order !in s.cancelledOrders, OrderCancelled);
    var _ :- Check(now <= order.expiry, OrderExpired);
    var _ :- Check(order.router in s.gov.routers, RouterNotWhitelisted);
    var _ :- Check(order.orderType.DCA? || order.routerDataHash == Some(routerData), RouterDataMismatch);
    Check(l.Invalidated(order.owner) <= order.nonce, NonceBelowInvalidation)
  }

  function LegacyAmount(l: Legacy, now: nat, order: Order): Result<nat> {
    if order.orderType.DCA? then NextChunk(l.core, now, order)
    else
      var _ :- Check(l.Nonce(order.owner) == order.nonce, OrderAlreadyExecuted);
      Ok(order.amountIn)
  }

  function LegacyFloor(order: Order, amount: nat): Result<nat>
    requires 0 < order.amountIn
  {
    if order.orderType.DCA? then
      var product :- Checked(order.minAmountOut * amount);
      Ok(if product / order.amountIn == 0 then 1 else product / order.amountIn)
    else Ok(order.minAmountOut)
  }

  function CountLegacyFill(l: Legacy, order: Order, now: nat, ledger: Ledger): Legacy {
    var counted := l.(core := CountFill(l.core, order, now).(ledger := ledger));
    if order.orderType.DCA? then counted
    else counted.(nonces := l.nonces[order.owner := l.Nonce(order.owner) + 1])
  }

  /** The floor is computed after the router call, so a failing swap is reported first. */
  function ExecuteLegacy(
    d: Deployment, l: Legacy, feeds: FeedTable, now: nat,
    caller: Address, order: Order, signer: Address, routerData: RouterData, swap: Swap): Result<(Legacy, Receipt)>
  {
    var _ :- CheckLegacyOrder(l, now, caller, order, signer, routerData);
    var amount :- LegacyAmount(l, now, order);
    var fee :- CheckFunds(d, l.core, feeds, now, order, amount);
    var _ :- RouterCall(d, Fund(d, l.core.ledger, order, amount, fee), order, swap);
    var floor :- LegacyFloor(order, amount);
    var settled :- Settle(d, l.core.ledger, order, amount, fee, floor, swap);
    Ok((CountLegacyFill(l, order, now, settled.ledger),
        Receipt(order, amount, fee, floor, settled.tokenOut, settled.ethOut, now)))
  }

  /** Void every order below `newNonce`; the new value must rise, and not by too much. */
  function InvalidateNonces(l: Legacy, caller: Address, newNonce: nat): Result<Legacy> {
    var _ :- Check(l.Invalidated(caller) < newNonce, MustIncrease);
    var _ :- Check(newNonce <= l.Nonce(caller) + 1000, NonceTooHigh);
    Ok(l.(invalidated := l.invalidated[caller := newNonce]))
  }

  datatype LegacyCall =
    | Fill(caller: Address, order: Order, signer: Address, routerData: RouterData, swap: Swap)
    | Withdraw(caller: Address, order: Order)
    | RaiseNonce(caller: Address, newNonce: nat)
    // Any change to settings or tokens made elsewhere.
    | Outside(gov: Governance, ledger: Ledger)

  datatype LegacyTx = LegacyTx(now: nat, feeds: FeedTable, call: LegacyCall)

  function ApplyLegacy(d: Deployment, l: Legacy, tx: LegacyTx): Result<(Legacy, Option<Receipt>)> {
    match tx.call
    case Fill(caller, order, signer, routerData, swap) =>
      var done :- ExecuteLegacy(d, l, tx.feeds, tx.now, caller, order, signer, routerData, swap);
      Ok((done.0, Some(done.1)))
    case Withdraw(caller, order) =>
      var core :- CancelOrder(l.core, caller, order);
      Ok((l.(core := core), None))
    case RaiseNonce(caller, newNonce) =>
      var raised :- InvalidateNonces(l, caller, newNonce);
      Ok((raised, None))
    case Outside(gov, ledger) => Ok((l.(core := l.core.(gov := gov, ledger := ledger)), None))
  }

  function StepLegacy(d: Deployment, l: Legacy, tx: LegacyTx): Legacy {
    var applied := ApplyLegacy(d, l, tx);
    if applied.Ok? then applied.value.0 else l
  }

  predicate FillsLegacy(d: Deployment, l: Legacy, tx: LegacyTx, order: Order) {
    var applied := ApplyLegacy(d, l, tx);
    applied.Ok? && applied.value.1.Some? && applied.value.1.value.order == order
  }

  function RunLegacy(d: Deployment, l: Legacy, txs: seq<LegacyTx>): Legacy {
    if txs == [] then l else StepLegacy(d, RunLegacy(d, l, txs[..|txs| - 1]), txs[|txs| - 1])
  }

  /** What a fill was allowed by and what it does to the nonces. */
  lemma LegacyFillFrame(
    d: Deployment, l: Legacy, feeds: FeedTable, now: nat,
    caller: Address, order: Order, signer: Address, routerData: RouterData, swap: Swap)
    requires ExecuteLegacy(d, l, feeds, now, caller, order, signer, routerData, swap).Ok?
    ensures
      var (after, r) := ExecuteLegacy(d, l, feeds, now, caller, order, signer, routerData, swap).value;
      && r.order == order
      && order !in l.core.cancelledOrders
      && l.Invalidated(order.owner) <= order.nonce
      && (!order.orderType.DCA? ==> l.Nonce(order.owner) == order.nonce)
      && after == CountLegacyFill(l, order, now, after.core.ledger)
  {
    hide Settle, RouterCall, CheckFunds, NextChunk, Fund;
  }

  /**
   * An order can no longer fill: withdrawn, below the invalidated nonce, or one-shot while the owner's running nonce is
   * below it. The last case never clears, because only a one-shot fill moves the running nonce.
   */
  predicate LegacyStopped(l: Legacy, order: Order) {
    || order in l.core.cancelledOrders
    || order.nonce < l.Invalidated(order.owner)
    || (!order.orderType.DCA? && l.Nonce(order.owner) < l.Invalidated(order.owner))
  }

  lemma LegacyStoppedDoesNotFill(d: Deployment, l: Legacy, tx: LegacyTx, order: Order)
    requires LegacyStopped(l, order)
    ensures !FillsLegacy(d, l, tx, order)
    ensures LegacyStopped(StepLegacy(d, l, tx), order)
  {
    hide ExecuteLegacy;
    var call := tx.call;
    if call.Fill?
        && ExecuteLegacy(d, l, tx.feeds, tx.now, call.caller, call.order, call.signer, call.routerData, call.swap).Ok? {
      LegacyFillFrame(d, l, tx.feeds, tx.now, call.caller, call.order, call.signer, call.routerData, call.swap);
    }
  }

  /** Once stopped, a legacy order never fills again in any later state. */
  lemma {:induction false} LegacyStoppedForever(
      d: Deployment, l: Legacy, txs: seq<LegacyTx>, tx: LegacyTx, order: Order)
    requires LegacyStopped(l, order)
    ensures LegacyStopped(RunLegacy(d, l, txs), order)
    ensures !FillsLegacy(d, RunLegacy(d, l, txs), tx, order)
  {
    hide ApplyLegacy, LegacyStopped;
    if txs != [] {
      LegacyStoppedForever(d, l, txs[..|txs| - 1], tx, order);
      LegacyStoppedDoesNotFill(d, RunLegacy(d, l, txs[..|txs| - 1]), txs[|txs| - 1], order);
    }
    LegacyStoppedDoesNotFill(d, RunLegacy(d, l, txs), tx, order);
  }

  // ── What raising the nonce leaves alone ──

  /** Two states that differ at most in the nonce below which one wallet's orders are void. */
  ghost predicate SameButVoided(l: Legacy, m: Legacy, wallet: Address) {
    && m == l.(invalidated := m.invalidated)
    && forall owner :: owner != wallet ==> m.Invalidated(owner) == l.Invalidated(owner)
  }

  /** An order of the wallet that is void in neither state, or anyone else's. */
  predicate VoidInNeither(l: Legacy, m: Legacy, wallet: Address, order: Order) {
    order.owner == wallet ==> l.Invalidated(wallet) <= order.nonce && m.Invalidated(wallet) <= order.nonce
  }

  /** Such an order does not notice: every attempt to fill it ends the same in both states. */
  lemma FillIgnoresVoiding(
    d: Deployment, l: Legacy, m: Legacy, wallet: Address, feeds: FeedTable, now: nat,
    caller: Address, order: Order, signer: Address, routerData: RouterData, swap: Swap)
    requires SameButVoided(l, m, wallet) && VoidInNeither(l, m, wallet, order)
    ensures
      var x := ExecuteLegacy(d, l, feeds, now, caller, order, signer, routerData, swap);
      var y := ExecuteLegacy(d, m, feeds, now, caller, order, signer, routerData, swap);
      && x.Ok? == y.Ok?
      && (x.Err? ==> x.error == y.error)
      && (x.Ok? ==> x.value.1 == y.value.1 && y.value.0 == x.value.0.(invalidated := m.invalidated)
                    && x.value.0.invalidated == l.invalidated)
  {
    hide Settle, RouterCall, CheckFunds, NextChunk, Fund, LegacyFloor;
    assert CheckLegacyOrder(m, now, caller, order, signer, routerData)
        == CheckLegacyOrder(l, now, caller, order, signer, routerData);
    assert LegacyAmount(m, now, order) == LegacyAmount(l, now, order);
  }

  /** The wallet raises nothing itself, and of its orders only those void in neither state are tried. */
  predicate Untouched(l: Legacy, m: Legacy, wallet: Address, tx: LegacyTx) {
    match tx.call
    case Fill(_, order, _, _, _) => VoidInNeither(l, m, wallet, order)
    case RaiseNonce(caller, _) => caller != wallet
    case _ => true
  }

  lemma StepIgnoresVoiding(d: Deployment, l: Legacy, m: Legacy, wallet: Address, tx: LegacyTx)
    requires SameButVoided(l, m, wallet) && Untouched(l, m, wallet, tx)
    ensures SameButVoided(StepLegacy(d, l, tx), StepLegacy(d, m, tx), wallet)
    ensures StepLegacy(d, l, tx).Invalidated(wallet) == l.Invalidated(wallet)
    ensures StepLegacy(d, m, tx).Invalidated(wallet) == m.Invalidated(wallet)
    ensures LegacyFilled(d, l, tx) == LegacyFilled(d, m, tx)
  {
    hide ExecuteLegacy;
    var call := tx.call;
    if call.Fill? {
      FillIgnoresVoiding(
        d, l, m, wallet, tx.feeds, tx.now, call.caller, call.order, call.signer, call.routerData, call.swap);
    }
    var x, y := StepLegacy(d, l, tx), StepLegacy(d, m, tx);
    forall owner | owner != wallet
      ensures y.Invalidated(owner) == x.Invalidated(owner)
    {
      assert m.Invalidated(owner) == l.Invalidated(owner);
    }
    assert call.RaiseNonce? ==> m.Invalidated(call.caller) == l.Invalidated(call.caller);
  }

  function LegacyFilled(d: Deployment, l: Legacy, tx: LegacyTx): Option<Receipt> {
    var applied := ApplyLegacy(d, l, tx);
    if applied.Ok? then applied.value.1 else None
  }

  /** The successful fills of a run, oldest first. */
  function LegacyReceipts(d: Deployment, l: Legacy, txs: seq<LegacyTx>): seq<Receipt> {
    if txs == [] then []
    else
      var earlier := LegacyReceipts(d, l, txs[..|txs| - 1]);
      var filled := LegacyFilled(d, RunLegacy(d, l, txs[..|txs| - 1]), txs[|txs| - 1]);
      if filled.Some? then earlier + [filled.value] else earlier
  }

  /**
   * Over every run that leaves the wallet's void orders alone, raising its nonce makes no difference: the same calls
   * go through and fail, the same fills happen, and the states stay the same but for that nonce.
   */
  lemma {:induction false} RunsIgnoreVoiding(d: Deployment, l: Legacy, m: Legacy, wallet: Address, txs: seq<LegacyTx>)
    requires SameButVoided(l, m, wallet) && forall tx :: tx in txs ==> Untouched(l, m, wallet, tx)
    ensures LegacyReceipts(d, l, txs) == LegacyReceipts(d, m, txs)
    ensures SameButVoided(RunLegacy(d, l, txs), RunLegacy(d, m, txs), wallet)
    ensures RunLegacy(d, l, txs).Invalidated(wallet) == l.Invalidated(wallet)
    ensures RunLegacy(d, m, txs).Invalidated(wallet) == m.Invalidated(wallet)
  {
    hide ApplyLegacy, SameButVoided;
    if txs != [] {
      var earlier, tx := txs[..|txs| - 1], txs[|txs| - 1];
      assert tx in txs;
      RunsIgnoreVoiding(d, l, m, wallet, earlier);
      StepIgnoresVoiding(d, RunLegacy(d, l, earlier), RunLegacy(d, m, earlier), wallet, tx);
    }
  }

  /** A stopped order has no fill in any later run. */
  lemma {:induction false} StoppedHasNoReceipts(
    d: Deployment, l: Legacy, txs: seq<LegacyTx>, order: Order)
    requires LegacyStopped(l, order)
    ensures forall r :: r in LegacyReceipts(d, l, txs) ==> r.order != order
  {
    hide ApplyLegacy, LegacyStopped;
    if txs != [] {
      var earlier, tx := txs[..|txs| - 1], txs[|txs| - 1];
      StoppedHasNoReceipts(d, l, earlier, order);
      LegacyStoppedForever(d, l, earlier, tx, order);
    }
  }

  // ── When a legacy order fills, and what it pays ──

  /** The minimum as it applies to one fill: scaled for a DCA order, and then at least one unit. */
  function LegacyBound(order: Order, amount: nat): nat
    requires 0 < order.amountIn
  {
    if !order.orderType.DCA? then order.minAmountOut
    else if 0 < ScaledMin(order.minAmountOut, amount, order.amountIn)
    then ScaledMin(order.minAmountOut, amount, order.amountIn)
    else 1
  }

  /** Everything a legacy order needs to be traded. */
  predicate LegacyTradable(
    d: Deployment, l: Legacy, feeds: FeedTable, now: nat, caller: Address, order: Order, signer: Address,
    routerData: RouterData)
  {
    var s := l.core;
    && caller in s.gov.executors && !s.gov.paused
    && signer == order.owner && order !in s.cancelledOrders && now <= order.expiry
    && order.router in s.gov.routers && 0 < order.minAmountOut && 10_000 <= order.amountIn
    && l.Invalidated(order.owner) <= order.nonce
    && (if order.orderType.DCA? then Checker.Due(s, now, order)
        else order.routerDataHash == Some(routerData) && l.Nonce(order.owner) == order.nonce)
    && (order.priceFeed == ZERO_ADDRESS || Triggered(s.gov.oracleConfigs, feeds, now, order))
    && var amount := Checker.AmountDue(s, order);
    && amount * 10 < WORD
    && amount <= s.ledger.Balance(order.tokenIn, order.owner)
    && amount <= s.ledger.Allowance(order.tokenIn, order.owner, d.self)
  }

  lemma LegacyAdmission(
    l: Legacy, now: nat, caller: Address, order: Order, signer: Address, routerData: RouterData)
    ensures
      CheckLegacyOrder(l, now, caller, order, signer, routerData).Ok? && LegacyAmount(l, now, order).Ok?
      <==> && caller in l.core.gov.executors && !l.core.gov.paused
           && signer == order.owner && order !in l.core.cancelledOrders && now <= order.expiry
           && order.router in l.core.gov.routers && 0 < order.minAmountOut && 10_000 <= order.amountIn
           && l.Invalidated(order.owner) <= order.nonce
           && (if order.orderType.DCA? then Checker.Due(l.core, now, order)
               else order.routerDataHash == Some(routerData) && l.Nonce(order.owner) == order.nonce)
    ensures LegacyAmount(l, now, order).Ok? && CheckLegacyOrder(l, now, caller, order, signer, routerData).Ok? ==>
              && (order.orderType.DCA? ==> l.core.Executions(order) < order.dcaTotal)
              && LegacyAmount(l, now, order).value == Checker.AmountDue(l.core, order)
  {
    hide ChunkSize;
  }

  /**
   * A legacy order fills if and only if it is tradable and the swap suffices for its minimum, scaled and at least one
   * unit: there is no oracle floor.
   */
  lemma LegacyFillsExactly(
    d: Deployment, l: Legacy, feeds: FeedTable, now: nat, caller: Address, order: Order, signer: Address,
    routerData: RouterData, swap: Swap)
    ensures ExecuteLegacy(d, l, feeds, now, caller, order, signer, routerData, swap).Ok?
       <==> && LegacyTradable(d, l, feeds, now, caller, order, signer, routerData)
            && var amount := Checker.AmountDue(l.core, order);
            && (order.orderType.DCA? ==> order.minAmountOut * amount < WORD)
            && Custody.SwapSuffices(d, l.core.ledger, order, amount, amount / 1000, LegacyBound(order, amount), swap)
    ensures ExecuteLegacy(d, l, feeds, now, caller, order, signer, routerData, swap).Ok? ==>
              LegacyPays(ExecuteLegacy(d, l, feeds, now, caller, order, signer, routerData, swap).value.1)
  {
    hide CheckLegacyOrder, LegacyAmount, PriceOk, Triggered, Checker.Due, Checker.AmountDue, Settle, RouterCall, Fund;
    hide Custody.SwapSuffices;
    LegacyAdmission(l, now, caller, order, signer, routerData);
    PriceOkExactly(l.core.gov.oracleConfigs, feeds, now, order);
    var amount := LegacyAmount(l, now, order);
    if amount.Ok? && CheckFunds(d, l.core, feeds, now, order, amount.value).Ok?
        && CheckLegacyOrder(l, now, caller, order, signer, routerData).Ok? {
      var fee := CheckFunds(d, l.core, feeds, now, order, amount.value).value;
      DivUnique(amount.value * FEE_BPS, BPS_DENOMINATOR, amount.value / 1000);
      LegacySettles(d, l.core.ledger, order, amount.value, fee, swap);
    }
  }

  lemma LegacySettles(d: Deployment, l: Ledger, order: Order, amount: nat, fee: nat, swap: Swap)
    requires CanPull(d, l, order, amount) && fee <= amount && 0 < order.amountIn
    ensures
      var floor := LegacyBound(order, amount);
      && (Custody.SwapSuffices(d, l, order, amount, fee, floor, swap) ==>
            RouterCall(d, Fund(d, l, order, amount, fee), order, swap).Ok?)
      && (Settle(d, l, order, amount, fee, floor, swap).Ok? <==>
            Custody.SwapSuffices(d, l, order, amount, fee, floor, swap))
      && (Settle(d, l, order, amount, fee, floor, swap).Ok? ==>
            var settled := Settle(d, l, order, amount, fee, floor, swap).value;
            floor <= settled.tokenOut + settled.ethOut)
    ensures LegacyFloor(order, amount).Ok? <==> (order.orderType.DCA? ==> order.minAmountOut * amount < WORD)
    ensures LegacyFloor(order, amount).Ok? ==> LegacyFloor(order, amount).value == LegacyBound(order, amount)
  {
    hide Custody.SwapSuffices, RouterCall, Fund, Deliver, RefundDust;
    Custody.SettlesExactly(d, l, order, amount, fee, LegacyBound(order, amount), swap);
    if Settle(d, l, order, amount, fee, LegacyBound(order, amount), swap).Ok? {
      SettledClearsFloor(d, l, order, amount, fee, LegacyBound(order, amount), swap);
    }
  }

  /** What a legacy fill pays: its minimum, scaled and never nothing, for a tenth of a percent. */
  predicate LegacyPays(r: Receipt) {
    && 0 < r.order.amountIn && r.fee == r.pulled / 1000
    && 0 < LegacyBound(r.order, r.pulled) == r.floor <= r.tokenOut + r.ethOut
  }

  /** So every fill of every run does. */
  lemma {:induction false} LegacyFillsPay(d: Deployment, l: Legacy, txs: seq<LegacyTx>, r: Receipt)
    requires r in LegacyReceipts(d, l, txs)
    ensures LegacyPays(r)
  {
    hide ExecuteLegacy, LegacyTradable, LegacyPays;
    var earlier, tx := txs[..|txs| - 1], txs[|txs| - 1];
    if r in LegacyReceipts(d, l, earlier) {
      LegacyFillsPay(d, l, earlier, r);
    } else {
      var call := tx.call;
      LegacyFillsExactly(d, RunLegacy(d, l, earlier), tx.feeds, tx.now, call.caller, call.order, call.signer,
        call.routerData, call.swap);
    }
  }

  /** One more transaction on an order's counter and its fills. */
  lemma LegacyCounterStep(d: Deployment, l: Legacy, tx: LegacyTx, order: Order)
    requires order.orderType.DCA?
    ensures
      var filled, k, after := LegacyFilled(d, l, tx), l.core.Executions(order), StepLegacy(d, l, tx);
      if filled.Some? && filled.value.order == order then
        && k < order.dcaTotal && after.core.Executions(order) == k + 1
        && filled.value.pulled == ChunkSize(order.amountIn, order.dcaTotal, k)
      else after.core.Executions(order) == k
  {
    hide ExecuteLegacy, CheckLegacyOrder;
    var call := tx.call;
    if LegacyFilled(d, l, tx).Some? {
      LegacyFillFrame(d, l, tx.feeds, tx.now, call.caller, call.order, call.signer, call.routerData, call.swap);
      LegacyPulls(d, l, tx.feeds, tx.now, call.caller, call.order, call.signer, call.routerData, call.swap);
    }
  }

  lemma LegacyPulls(
    d: Deployment, l: Legacy, feeds: FeedTable, now: nat,
    caller: Address, order: Order, signer: Address, routerData: RouterData, swap: Swap)
    requires ExecuteLegacy(d, l, feeds, now, caller, order, signer, routerData, swap).Ok?
    ensures
      var r := ExecuteLegacy(d, l, feeds, now, caller, order, signer, routerData, swap).value.1;
      && (order.orderType.DCA? ==> l.core.Executions(order) < order.dcaTotal)
      && r.pulled == Checker.AmountDue(l.core, order)
  {
    hide CheckLegacyOrder, LegacyAmount, CheckFunds, Settle, RouterCall, Fund, LegacyFloor, Checker.AmountDue;
    LegacyAdmission(l, now, caller, order, signer, routerData);
  }

  /** Over every run of the previous contract too, a DCA order filled `k` times had its first `k` chunks taken. */
  lemma {:induction false} LegacyFillsAreTheFirstChunks(d: Deployment, l: Legacy, txs: seq<LegacyTx>, order: Order)
    requires order.orderType.DCA? && l.core.Executions(order) == 0
    ensures RunLegacy(d, l, txs).core.Executions(order) <= order.dcaTotal
    ensures Pulled(FillsOf(LegacyReceipts(d, l, txs), order))
         == FirstChunks(order.amountIn, order.dcaTotal, RunLegacy(d, l, txs).core.Executions(order))
  {
    hide ApplyLegacy;
    if txs != [] {
      var earlier, tx := txs[..|txs| - 1], txs[|txs| - 1];
      var filled := LegacyFilled(d, RunLegacy(d, l, earlier), tx);
      LegacyFillsAreTheFirstChunks(d, l, earlier, order);
      LegacyCounterStep(d, RunLegacy(d, l, earlier), tx, order);
      if filled.Some? {
        FillsSnoc(LegacyReceipts(d, l, earlier), filled.value, order);
        PulledSnoc(FillsOf(LegacyReceipts(d, l, earlier), order), filled.value);
      }
    }
  }

  /** The running nonce moves only with a one-shot fill, by one; and such a fill is on the running nonce. */
  lemma LegacyNonceStep(d: Deployment, l: Legacy, tx: LegacyTx, owner: Address)
    ensures
      var filled, after := LegacyFilled(d, l, tx), StepLegacy(d, l, tx);
      if filled.Some? && Cancellation.UsesNonce(filled.value, owner, filled.value.order.nonce) then
        filled.value.order.nonce == l.Nonce(owner) && after.Nonce(owner) == l.Nonce(owner) + 1
      else after.Nonce(owner) == l.Nonce(owner)
  {
    hide ExecuteLegacy;
    var call := tx.call;
    if LegacyFilled(d, l, tx).Some? {
      LegacyFillFrame(d, l, tx.feeds, tx.now, call.caller, call.order, call.signer, call.routerData, call.swap);
    }
  }

  /** Over every run a nonce is spent by exactly the one-shot fills that the running nonce has passed, one for each. */
  lemma {:induction false} LegacyNoncesExactly(
    d: Deployment, l: Legacy, txs: seq<LegacyTx>, owner: Address, nonce: nat)
    ensures l.Nonce(owner) <= RunLegacy(d, l, txs).Nonce(owner)
    ensures Cancellation.FillsOnNonce(LegacyReceipts(d, l, txs), owner, nonce)
         == if l.Nonce(owner) <= nonce < RunLegacy(d, l, txs).Nonce(owner) then 1 else 0
  {
    hide ApplyLegacy;
    if txs != [] {
      var earlier, tx := txs[..|txs| - 1], txs[|txs| - 1];
      var filled := LegacyFilled(d, RunLegacy(d, l, earlier), tx);
      LegacyNoncesExactly(d, l, earlier, owner, nonce);
      LegacyNonceStep(d, RunLegacy(d, l, earlier), tx, owner);
      if filled.Some? {
        assert (LegacyReceipts(d, l, earlier) + [filled.value])[..|LegacyReceipts(d, l, earlier)|]
            == LegacyReceipts(d, l, earlier);
      }
    }
  }
}
