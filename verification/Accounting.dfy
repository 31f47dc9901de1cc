/** What a run of the executor takes from an order's owner, fill by fill. */
module Accounting {
  import opened Ledger
  import opened ExecutorTypes
  import opened DcaChunks
  import opened FloorDivision
  import opened Oracle
  import opened Execution
  import opened Machine

  lemma PulledSnoc(rs: seq<Receipt>, r: Receipt)
    ensures Pulled(rs + [r]) == Pulled(rs) + [r.pulled]
  {
  }

  lemma FillsSnoc(rs: seq<Receipt>, r: Receipt, order: Order)
    ensures FillsOf(rs + [r], order) == if r.order == order then FillsOf(rs, order) + [r] else FillsOf(rs, order)
  {
    assert (rs + [r])[..|rs|] == rs;
  }

  /** One more transaction adds at most one fill to an order's history. */
  lemma FillsStep(d: Deployment, s: State, txs: seq<Tx>, order: Order)
    requires txs != []
    ensures
      var earlier := txs[..|txs| - 1];
      var filled := Filled(d, Run(d, s, earlier), txs[|txs| - 1]);
      FillsOf(Receipts(d, s, txs), order)
      == FillsOf(Receipts(d, s, earlier), order)
         + if filled.Some? && filled.value.order == order then [filled.value] else []
  {
    var earlier := txs[..|txs| - 1];
    var filled := Filled(d, Run(d, s, earlier), txs[|txs| - 1]);
    if filled.Some? {
      FillsSnoc(Receipts(d, s, earlier), filled.value, order);
    }
  }

  /** A fill of a DCA order: which chunk it is, when it may happen, and what it does to the counter. */
  lemma DcaFill(d: Deployment, s: State, tx: Tx)
    requires Filled(d, s, tx).Some? && Filled(d, s, tx).value.order.orderType.DCA?
    ensures
      var r, after := Filled(d, s, tx).value, Step(d, s, tx);
      var o := r.order;
      && s.Executions(o) < o.dcaTotal
      && r.pulled == ChunkSize(o.amountIn, o.dcaTotal, s.Executions(o))
      && after.Executions(o) == s.Executions(o) + 1 && after.LastExecution(o) == tx.now
      && s.LastExecution(o) + o.dcaInterval <= tx.now == r.at <= o.expiry
      && o.amountIn * (s.Executions(o) + 1) < WORD
      && MIN_ORDER_AMOUNT <= PerChunk(o.amountIn, o.dcaTotal)
      && (forall other :: other != o ==>
            after.Executions(other) == s.Executions(other) && after.LastExecution(other) == s.LastExecution(other))
  {
    hide ExecuteOrder, Admit;
    var call := tx.call;
    FillFrame(d, s, tx.feeds, tx.now, call.caller, call.order, call.signer, call.routerData, call.swap);
    AdmittedDca(s, tx.now, call.caller, call.order, call.signer, call.routerData);
  }

  /** A call that is not a fill of this order leaves its counter and its clock alone. */
  lemma NotThisOrder(d: Deployment, s: State, tx: Tx, order: Order)
    requires Filled(d, s, tx).None? || Filled(d, s, tx).value.order != order
    ensures Step(d, s, tx).Executions(order) == s.Executions(order)
    ensures Step(d, s, tx).LastExecution(order) == s.LastExecution(order)
  {
    StepOnOrderBook(d, s, tx);
    if Filled(d, s, tx).Some? {
      var call := tx.call;
      FillFrame(d, s, tx.feeds, tx.now, call.caller, call.order, call.signer, call.routerData, call.swap);
    }
  }

  /**
   * Over every run of fills, failed fills, cancels, invalidations and settings changes, an order that has been filled
   * `k` times has had exactly its first `k` chunks taken, and never more than its number of fills.
   */
  lemma {:induction false} FillsAreTheFirstChunks(d: Deployment, s: State, txs: seq<Tx>, order: Order)
    requires order.orderType.DCA? && s.Executions(order) == 0
    ensures Run(d, s, txs).Executions(order) <= order.dcaTotal
    ensures Pulled(FillsOf(Receipts(d, s, txs), order))
         == FirstChunks(order.amountIn, order.dcaTotal, Run(d, s, txs).Executions(order))
  {
    hide Apply;
    if txs != [] {
      var earlier, tx := txs[..|txs| - 1], txs[|txs| - 1];
      var before := Run(d, s, earlier);
      FillsAreTheFirstChunks(d, s, earlier, order);
      FillsStep(d, s, txs, order);
      if Filled(d, before, tx).Some? && Filled(d, before, tx).value.order == order {
        DcaFill(d, before, tx);
        PulledSnoc(FillsOf(Receipts(d, s, earlier), order), Filled(d, before, tx).value);
      } else {
        NotThisOrder(d, before, tx, order);
      }
    }
  }

  /**
   * The input taken for an order after `k` of its fills is the floor of `amountIn * k / dcaTotal`; all of them take all
   * of it.
   */
  lemma InputPulledIsExact(d: Deployment, s: State, txs: seq<Tx>, order: Order)
    requires order.orderType.DCA? && s.Executions(order) == 0
    ensures
      var k, pulled := Run(d, s, txs).Executions(order), Sum(Pulled(FillsOf(Receipts(d, s, txs), order)));
      && k == |FillsOf(Receipts(d, s, txs), order)|
      && k <= order.dcaTotal
      && (0 < order.dcaTotal ==> pulled == order.amountIn * k / order.dcaTotal)
      && (0 < k == order.dcaTotal ==> pulled == order.amountIn)
  {
    FillsAreTheFirstChunks(d, s, txs, order);
    if 0 < order.dcaTotal {
      ChunksTelescope(order.amountIn, order.dcaTotal, Run(d, s, txs).Executions(order));
    }
  }

  /**
   * The chunk is computed in 256 bits before it is divided: an order whose total times its number of fills does not fit
   * gets as far as the products do and can never be completed, whatever anyone calls.
   */
  lemma {:induction false} FillsStayInRange(d: Deployment, s: State, txs: seq<Tx>, order: Order)
    requires order.orderType.DCA? && s.Executions(order) == 0
    ensures 0 < Run(d, s, txs).Executions(order) ==> order.amountIn * Run(d, s, txs).Executions(order) < WORD
    ensures 0 < order.dcaTotal && WORD <= order.amountIn * order.dcaTotal ==>
        Run(d, s, txs).Executions(order) < order.dcaTotal
  {
    hide Apply;
    FillsAreTheFirstChunks(d, s, txs, order);
    if txs != [] {
      var earlier, tx := txs[..|txs| - 1], txs[|txs| - 1];
      FillsStayInRange(d, s, earlier, order);
      if Filled(d, Run(d, s, earlier), tx).Some? && Filled(d, Run(d, s, earlier), tx).value.order == order {
        DcaFill(d, Run(d, s, earlier), tx);
      } else {
        NotThisOrder(d, Run(d, s, earlier), tx, order);
      }
    }
  }

  /** The transactions of a run that do not revert. */
  function Effective(d: Deployment, s: State, txs: seq<Tx>): seq<Tx> {
    if txs == [] then []
    else
      var last := |txs| - 1;
      var earlier := Effective(d, s, txs[..last]);
      if Apply(d, Run(d, s, txs[..last]), txs[last]).Ok? then earlier + [txs[last]] else earlier
  }

  /** Failed fills and other reverted calls leave no trace: without them a run ends the same and fills the same. */
  lemma {:induction false} RevertedCallsVanish(d: Deployment, s: State, txs: seq<Tx>)
    ensures Run(d, s, Effective(d, s, txs)) == Run(d, s, txs)
    ensures Receipts(d, s, Effective(d, s, txs)) == Receipts(d, s, txs)
  {
    hide Apply;
    if txs != [] {
      var earlier, tx := txs[..|txs| - 1], txs[|txs| - 1];
      RevertedCallsVanish(d, s, earlier);
      var kept := Effective(d, s, earlier);
      assert (kept + [tx])[..|kept|] == kept;
    }
  }

  // ── Triggers ──

  lemma FillIsTriggered(d: Deployment, s: State, tx: Tx)
    requires Filled(d, s, tx).Some? && tx.call.order.priceFeed != ZERO_ADDRESS
    ensures Triggered(s.gov.oracleConfigs, tx.feeds, tx.now, tx.call.order)
  {
    hide Admit, OutputFloor, Settle, FairValueOut, PriceOk, Triggered;
    PriceOkExactly(s.gov.oracleConfigs, tx.feeds, tx.now, tx.call.order);
  }

  /** Transaction `i` of the run made this fill. */
  predicate FilledBy(d: Deployment, s: State, txs: seq<Tx>, i: nat, r: Receipt) {
    i < |txs| && Filled(d, Run(d, s, txs[..i]), txs[i]) == Some(r)
  }

  lemma {:induction false} ReceiptHasItsCall(d: Deployment, s: State, txs: seq<Tx>, r: Receipt) returns (i: nat)
    requires r in Receipts(d, s, txs)
    ensures FilledBy(d, s, txs, i, r)
  {
    hide Apply;
    var last := |txs| - 1;
    if r in Receipts(d, s, txs[..last]) {
      i := ReceiptHasItsCall(d, s, txs[..last], r);
      assert txs[..last][..i] == txs[..i];
    } else {
      i := last;
    }
  }

  /** Transaction `i` of the run made this fill, and the order's trigger, if it has one, was met in that block. */
  ghost predicate FilledOnTrigger(d: Deployment, s: State, txs: seq<Tx>, i: nat, r: Receipt) {
    && FilledBy(d, s, txs, i, r)
    && (r.order.priceFeed != ZERO_ADDRESS ==>
          Triggered(Run(d, s, txs[..i]).gov.oracleConfigs, txs[i].feeds, txs[i].now, r.order))
  }

  /** Over every run, no order with a trigger fills in a block in which its trigger is not met. */
  lemma FillsMeetTheirTrigger(d: Deployment, s: State, txs: seq<Tx>, r: Receipt)
    requires r in Receipts(d, s, txs)
    ensures exists i: nat :: FilledOnTrigger(d, s, txs, i, r)
  {
    hide Apply, Triggered, Run, Receipts;
    var i := ReceiptHasItsCall(d, s, txs, r);
    var before := Run(d, s, txs[..i]);
    FilledOrder(d, before, txs[i]);
    if r.order.priceFeed != ZERO_ADDRESS {
      FillIsTriggered(d, before, txs[i]);
    }
    assert FilledOnTrigger(d, s, txs, i, r);
  }

  /** A receipt is about the order of the call. */
  lemma FilledOrder(d: Deployment, s: State, tx: Tx)
    requires Filled(d, s, tx).Some?
    ensures tx.call.Execute? && Filled(d, s, tx).value.order == tx.call.order
  {
    hide ExecuteOrder;
    var call := tx.call;
    FillFrame(d, s, tx.feeds, tx.now, call.caller, call.order, call.signer, call.routerData, call.swap);
  }

  predicate Spaced(times: seq<nat>, gap: nat) {
    forall i :: 0 <= i < |times| - 1 ==> times[i] + gap <= times[i + 1]
  }

  function FillTimes(rs: seq<Receipt>): seq<nat> {
    seq(|rs|, i requires 0 <= i < |rs| => rs[i].at)
  }

  /** Fills of one order are at least an interval apart and none is later than the expiry, whatever the block times. */
  lemma {:induction false} FillsKeepTheSchedule(d: Deployment, s: State, txs: seq<Tx>, order: Order)
    requires order.orderType.DCA?
    ensures
      var times := FillTimes(FillsOf(Receipts(d, s, txs), order));
      && Spaced(times, order.dcaInterval)
      && (forall i :: 0 <= i < |times| ==> times[i] <= order.expiry)
      && (times != [] ==> times[|times| - 1] == Run(d, s, txs).LastExecution(order))
      && (times == [] ==> s.LastExecution(order) == Run(d, s, txs).LastExecution(order))
      && (times != [] ==> s.LastExecution(order) + order.dcaInterval <= times[0])
  {
    hide Apply;
    if txs != [] {
      var earlier, tx := txs[..|txs| - 1], txs[|txs| - 1];
      var before := Run(d, s, earlier);
      FillsKeepTheSchedule(d, s, earlier, order);
      FillsStep(d, s, txs, order);
      var fills := FillsOf(Receipts(d, s, earlier), order);
      if Filled(d, before, tx).Some? && Filled(d, before, tx).value.order == order {
        DcaFill(d, before, tx);
        assert FillTimes(fills + [Filled(d, before, tx).value]) == FillTimes(fills) + [tx.now];
      } else {
        NotThisOrder(d, before, tx, order);
      }
    }
  }

  // ── The output side ──

  function Delivered(rs: seq<Receipt>): int {
    if rs == [] then 0 else Delivered(rs[..|rs| - 1]) + rs[|rs| - 1].tokenOut + rs[|rs| - 1].ethOut
  }

  /** A settled fill has delivered at least its floor, in tokens and ETH together. */
  lemma SettledClearsFloor(d: Deployment, l: Ledger, order: Order, amount: nat, fee: nat, floor: nat, swap: Swap)
    requires CanPull(d, l, order, amount) && fee <= amount
    requires Settle(d, l, order, amount, fee, floor, swap).Ok?
    ensures
      var settled := Settle(d, l, order, amount, fee, floor, swap).value;
      floor <= settled.tokenOut + settled.ethOut
  {
  }

  /**
   * The oracle bound of a fill: fair value of the routed amount less the signed slippage, or zero without a usable
   * feed.
   */
  function OracleBound(d: Deployment, s: State, feeds: FeedTable, now: nat, order: Order, net: nat): int {
    var fair := FairValueOut(d.sequencerFeed, s.gov.tokenUsdFeeds, feeds, now, order.tokenIn, order.tokenOut, net);
    if fair.Ok? && fair.value.Some? then
      fair.value.value * (BPS_DENOMINATOR - order.maxSlippageBps) / BPS_DENOMINATOR
    else 0
  }

  /** The signed minimum as it applies to one fill. */
  function SignedBound(order: Order, amount: nat): nat
    requires 0 < order.amountIn
  {
    if order.orderType.DCA? then ScaledMin(order.minAmountOut, amount, order.amountIn) else order.minAmountOut
  }

  /** The floor is exactly the larger of the two bounds, and never zero. */
  lemma FloorIsTheLargerBound(d: Deployment, s: State, feeds: FeedTable, now: nat, order: Order, amount: nat, net: nat)
    requires 0 < order.amountIn && order.maxSlippageBps <= BPS_DENOMINATOR
    requires OutputFloor(d, s.gov, feeds, now, order, amount, net).Ok?
    ensures
      var floor, signed, oracle := OutputFloor(d, s.gov, feeds, now, order, amount, net).value,
                                   SignedBound(order, amount), OracleBound(d, s, feeds, now, order, net);
      && 0 < signed
      && floor == if signed < oracle then oracle else signed
  {
  }

  /** The price feeds and registry a fill was floored with. */
  predicate VouchedFor(d: Deployment, gov: Governance, feeds: FeedTable, now: nat, order: Order) {
    Vouched(d.sequencerFeed, gov.tokenUsdFeeds, feeds, now, order.tokenIn, order.tokenOut)
  }

  /** The fair value of an amount at the feeds' own answers. */
  function FairValueNow(gov: Governance, feeds: FeedTable, now: nat, order: Order, net: nat): nat
    requires LegVouches(gov.tokenUsdFeeds, feeds, now, order.tokenIn)
    requires LegVouches(gov.tokenUsdFeeds, feeds, now, order.tokenOut)
    requires FairValueFits(gov.tokenUsdFeeds, feeds, now, order.tokenIn, order.tokenOut, net)
  {
    FairValue(net, gov.tokenUsdFeeds[order.tokenIn].tokenDecimals, gov.tokenUsdFeeds[order.tokenOut].tokenDecimals,
              DollarPrice(gov.tokenUsdFeeds, feeds, now, order.tokenIn),
              DollarPrice(gov.tokenUsdFeeds, feeds, now, order.tokenOut))
  }

  /** The signed part of the floor can be computed, and comes to something. */
  predicate SignedPartStands(order: Order, amount: nat)
    requires 0 < order.amountIn
  {
    && (order.orderType.DCA? ==> order.minAmountOut * amount < WORD)
    && 0 < SignedBound(order, amount)
  }

  /**
   * Exactly when there is a floor, and what it is, on the feeds' raw answers: where prices are vouched for, the larger
   * of the signed bound and the fair value less the signed slippage, provided the fair value is not nothing; where
   * they are not and every feed can be read, the signed bound alone.
   */
  lemma FloorExactly(
      d: Deployment, gov: Governance, feeds: FeedTable, now: nat, order: Order, amount: nat, net: nat)
    requires 0 < order.amountIn && order.maxSlippageBps <= BPS_DENOMINATOR && 0 < net
    ensures
      var r := OutputFloor(d, gov, feeds, now, order, amount, net);
      if VouchedFor(d, gov, feeds, now, order) then
        && (r.Ok? <==>
              && SignedPartStands(order, amount)
              && FairValueFits(gov.tokenUsdFeeds, feeds, now, order.tokenIn, order.tokenOut, net)
              && 0 < FairValueNow(gov, feeds, now, order, net))
        && (r.Ok? ==>
              var oracle := MulDivFloor(FairValueNow(gov, feeds, now, order, net),
                                        BPS_DENOMINATOR - order.maxSlippageBps, BPS_DENOMINATOR);
              var signed := SignedBound(order, amount);
              r.value == if signed < oracle then oracle else signed)
      else
        Readable(d.sequencerFeed, gov.tokenUsdFeeds, feeds, now, order.tokenIn, order.tokenOut) ==>
          && (r.Ok? <==> SignedPartStands(order, amount))
          && (r.Ok? ==> r.value == SignedBound(order, amount))
  {
    hide FairValueOut, FairValue, Readable, LegVouches, SequencerVouches;
    FairValueExactly(d.sequencerFeed, gov.tokenUsdFeeds, feeds, now, order.tokenIn, order.tokenOut, net);
    var fair := FairValueOut(d.sequencerFeed, gov.tokenUsdFeeds, feeds, now, order.tokenIn, order.tokenOut, net);
    if fair.Ok? && fair.value.Some? {
      QuotientMonotone(fair.value.value, fair.value.value, BPS_DENOMINATOR - order.maxSlippageBps, BPS_DENOMINATOR,
        BPS_DENOMINATOR);
    }
  }

  predicate PaysItsFloor(d: Deployment, s: State, feeds: FeedTable, r: Receipt) {
    && 0 < r.order.amountIn && r.order.maxSlippageBps <= 500
    && r.fee == r.pulled / 1000
    && 0 < SignedBound(r.order, r.pulled) <= r.floor
    && OracleBound(d, s, feeds, r.at, r.order, r.pulled - r.fee) <= r.floor
    && r.floor <= r.tokenOut + r.ethOut
  }

  /**
   * Every fill pays at least the signed minimum scaled to it, never nothing, and whenever both legs have a usable
   * feed at least the oracle bound as well; the fee is a tenth of a percent of what was pulled.
   */
  lemma FillPaysItsFloor(d: Deployment, s: State, tx: Tx)
    requires Filled(d, s, tx).Some?
    ensures PaysItsFloor(d, s, tx.feeds, Filled(d, s, tx).value)
  {
    hide ExecuteOrder, OutputFloor, Settle, FairValueOut, Admit, OracleBound, SignedBound;
    var call := tx.call;
    FillFrame(d, s, tx.feeds, tx.now, call.caller, call.order, call.signer, call.routerData, call.swap);
    OrderPaysItsFloor(d, s, tx.feeds, tx.now, call.caller, call.order, call.signer, call.routerData, call.swap);
  }

  lemma OrderPaysItsFloor(
    d: Deployment, s: State, feeds: FeedTable, now: nat,
    caller: Address, order: Order, signer: Address, routerData: RouterData, swap: Swap)
    requires ExecuteOrder(d, s, feeds, now, caller, order, signer, routerData, swap).Ok?
    requires ExecuteOrder(d, s, feeds, now, caller, order, signer, routerData, swap).value.1.at == now
    ensures PaysItsFloor(d, s, feeds, ExecuteOrder(d, s, feeds, now, caller, order, signer, routerData, swap).value.1)
  {
    hide ExecuteOrder, OutputFloor, Settle, FairValueOut, Admit, OracleBound, SignedBound;
    var r := ExecuteOrder(d, s, feeds, now, caller, order, signer, routerData, swap).value.1;
    FillDetails(d, s, feeds, now, caller, order, signer, routerData, swap);
    DivUnique(r.pulled * FEE_BPS, BPS_DENOMINATOR, r.pulled / 1000);
    FloorIsTheLargerBound(d, s, feeds, now, order, r.pulled, r.pulled - r.fee);
    SettledClearsFloor(d, s.ledger, order, r.pulled, r.fee, r.floor, swap);
  }

  /** What was paid reaches the fair value of the routed amount less the signed slippage. */
  predicate PaysFairValue(gov: Governance, feeds: FeedTable, r: Receipt) {
    && LegVouches(gov.tokenUsdFeeds, feeds, r.at, r.order.tokenIn)
    && LegVouches(gov.tokenUsdFeeds, feeds, r.at, r.order.tokenOut)
    && r.fee < r.pulled && r.order.maxSlippageBps <= 500
    && FairValueFits(gov.tokenUsdFeeds, feeds, r.at, r.order.tokenIn, r.order.tokenOut, r.pulled - r.fee)
    && MulDivFloor(FairValueNow(gov, feeds, r.at, r.order, r.pulled - r.fee),
                   BPS_DENOMINATOR - r.order.maxSlippageBps, BPS_DENOMINATOR) <= r.tokenOut + r.ethOut
  }

  /**
   * With prices vouched for, every fill pays at least the fair value of what was routed less the signed slippage: never
   * mind who calls it, with what calldata, and what decimals the feeds have.
   */
  lemma FillPaysFairValue(d: Deployment, s: State, tx: Tx)
    requires Filled(d, s, tx).Some?
    ensures
      var r := Filled(d, s, tx).value;
      VouchedFor(d, s.gov, tx.feeds, r.at, r.order) ==> PaysFairValue(s.gov, tx.feeds, r)
  {
    hide ExecuteOrder, OutputFloor, Settle, Admit, FairValueNow, FairValueFits, LegVouches, SequencerVouches;
    hide OracleBound, SignedBound;
    var call := tx.call;
    var r := Filled(d, s, tx).value;
    FillFrame(d, s, tx.feeds, tx.now, call.caller, call.order, call.signer, call.routerData, call.swap);
    FillDetails(d, s, tx.feeds, tx.now, call.caller, call.order, call.signer, call.routerData, call.swap);
    FillPaysItsFloor(d, s, tx);
    AdmittedAmount(s, tx.now, call.caller, call.order, call.signer, call.routerData);
    if VouchedFor(d, s.gov, tx.feeds, r.at, r.order) {
      FloorExactly(d, s.gov, tx.feeds, r.at, r.order, r.pulled, r.pulled - r.fee);
    }
  }

  lemma AdmittedAmount(s: State, now: nat, caller: Address, order: Order, signer: Address, routerData: RouterData)
    requires Admit(s, now, caller, order, signer, routerData).Ok?
    ensures MIN_ORDER_AMOUNT <= Admit(s, now, caller, order, signer, routerData).value.1
  {
    hide CheckOrder;
    if order.orderType.DCA? {
      AdmittedDca(s, now, caller, order, signer, routerData);
      ChunkIsFloorOrCeiling(order.amountIn, order.dcaTotal, s.Executions(order));
    } else {
      AdmittedOneShot(s, now, caller, order, signer, routerData);
    }
  }

  lemma AdmittedOneShot(s: State, now: nat, caller: Address, order: Order, signer: Address, routerData: RouterData)
    requires !order.orderType.DCA? && Admit(s, now, caller, order, signer, routerData).Ok?
    ensures Admit(s, now, caller, order, signer, routerData).value.1 == order.amountIn >= MIN_ORDER_AMOUNT
  {
    hide UseNonce;
  }

  /** The same for every fill of every run. */
  lemma FillsPayFairValue(d: Deployment, s: State, txs: seq<Tx>, r: Receipt) returns (i: nat)
    requires r in Receipts(d, s, txs)
    ensures FilledBy(d, s, txs, i, r)
    ensures
      var gov := Run(d, s, txs[..i]).gov;
      VouchedFor(d, gov, txs[i].feeds, r.at, r.order) ==> PaysFairValue(gov, txs[i].feeds, r)
  {
    hide Apply, Run, Receipts, PaysFairValue, VouchedFor;
    i := ReceiptHasItsCall(d, s, txs, r);
    FillPaysFairValue(d, Run(d, s, txs[..i]), txs[i]);
  }

  /**
   * In exact numbers: with `exact / unit` the value of what was routed at the feeds' answers, in output units, the fill
   * pays more than that, less one unit and `10^tokenOut / priceOut`, less the slippage, less one unit.
   */
  lemma FairPaymentIsClose(gov: Governance, feeds: FeedTable, r: Receipt)
    requires PaysFairValue(gov, feeds, r)
    ensures
      var feedIn, feedOut := gov.tokenUsdFeeds[r.order.tokenIn], gov.tokenUsdFeeds[r.order.tokenOut];
      var exact := (r.pulled - r.fee) * DollarPrice(gov.tokenUsdFeeds, feeds, r.at, r.order.tokenIn)
          * Pow10(feedOut.tokenDecimals);
      var unit := DollarPrice(gov.tokenUsdFeeds, feeds, r.at, r.order.tokenOut) * Pow10(feedIn.tokenDecimals);
      (exact - unit - Pow10(feedIn.tokenDecimals) * Pow10(feedOut.tokenDecimals))
      * (BPS_DENOMINATOR - r.order.maxSlippageBps)
      < (r.tokenOut + r.ethOut + 1) * (unit * BPS_DENOMINATOR)
  {
    hide Pow10, Usable, MulDivFloor, FairValue;
    var feedIn, feedOut := gov.tokenUsdFeeds[r.order.tokenIn], gov.tokenUsdFeeds[r.order.tokenOut];
    var priceIn := DollarPrice(gov.tokenUsdFeeds, feeds, r.at, r.order.tokenIn);
    var priceOut := DollarPrice(gov.tokenUsdFeeds, feeds, r.at, r.order.tokenOut);
    var s, t := Pow10(feedIn.tokenDecimals), Pow10(feedOut.tokenDecimals);
    var fair := FairValueNow(gov, feeds, r.at, r.order, r.pulled - r.fee);
    FairValueIsClose(r.pulled - r.fee, feedIn.tokenDecimals, feedOut.tokenDecimals, priceIn, priceOut);
    MulDivBounds(fair, BPS_DENOMINATOR - r.order.maxSlippageBps, BPS_DENOMINATOR);
    ProductPositive(priceOut, s);
    PaidInExactNumbers((r.pulled - r.fee) * priceIn * t, priceOut * s, s * t, fair,
      BPS_DENOMINATOR - r.order.maxSlippageBps, r.tokenOut + r.ethOut,
      MulDivFloor(fair, BPS_DENOMINATOR - r.order.maxSlippageBps, BPS_DENOMINATOR));
  }

  lemma PaidInExactNumbers(exact: nat, unit: nat, slack: nat, fair: nat, kept: nat, paid: nat, floor: nat)
    requires 0 < unit && exact < (fair + 1) * unit + slack
    requires fair * kept < BPS_DENOMINATOR * floor + BPS_DENOMINATOR && floor <= paid
    ensures (exact - unit - slack) * kept < (paid + 1) * (unit * BPS_DENOMINATOR)
  {
    Distribute(unit, fair, 1);
    Scale(kept, exact - unit - slack, fair * unit);
    Rearrange(fair, unit, kept);
    Scale(unit, fair * kept + 1, BPS_DENOMINATOR * (paid + 1));
    Distribute(unit, fair * kept, 1);
    Rearrange(unit, BPS_DENOMINATOR, paid + 1);
  }

  /** Adding up: the fills of an order have paid at least the floors of the chunks they took. */
  lemma {:induction false} FillsPayTheirFloors(d: Deployment, s: State, txs: seq<Tx>, order: Order)
    requires order.orderType.DCA? && 0 < order.amountIn
    ensures
      var fills := FillsOf(Receipts(d, s, txs), order);
      && AllNatural(Pulled(fills))
      && SumOfFloors(order.minAmountOut, order.amountIn, Pulled(fills)) <= Delivered(fills)
  {
    hide Apply;
    if txs != [] {
      var earlier, tx := txs[..|txs| - 1], txs[|txs| - 1];
      FillsPayTheirFloors(d, s, earlier, order);
      FillsStep(d, s, txs, order);
      var fills, filled := FillsOf(Receipts(d, s, earlier), order), Filled(d, Run(d, s, earlier), tx);
      if filled.Some? && filled.value.order == order {
        FillPaysItsFloor(d, Run(d, s, earlier), tx);
        PulledSnoc(fills, filled.value);
        assert (fills + [filled.value])[..|fills|] == fills;
        assert Pulled(fills + [filled.value])[..|fills|] == Pulled(fills);
      }
    }
  }

  /** A completed order has paid out more than its signed minimum less one unit per fill. */
  lemma CompletedOrderPaysTheMinimum(d: Deployment, s: State, txs: seq<Tx>, order: Order)
    requires order.orderType.DCA? && s.Executions(order) == 0 && 0 < order.amountIn
    requires 0 < order.dcaTotal == Run(d, s, txs).Executions(order)
    ensures order.minAmountOut - order.dcaTotal < Delivered(FillsOf(Receipts(d, s, txs), order))
  {
    var fills := FillsOf(Receipts(d, s, txs), order);
    InputPulledIsExact(d, s, txs, order);
    FillsPayTheirFloors(d, s, txs, order);
    CompleteRunFloor(order.minAmountOut, order.amountIn, Pulled(fills));
  }
}
