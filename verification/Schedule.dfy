/** Whether a DCA schedule can finish before its order expires: the form's guard against what the contract allows. */
module Schedule {
  import opened Ledger
  import opened FloorDivision
  import opened ExecutorTypes
  import opened DcaChunks
  import opened Oracle
  import opened Execution
  import opened Machine
  import opened Accounting
  import opened Custody

  // ── The form ──

  const MAX_EXPIRY_DAYS: nat := 90
  const SECONDS_PER_HOUR: nat := 3600
  const SECONDS_PER_DAY: nat := 86_400
  const CUSTOM_BUYS_MAX: int := 100
  const CUSTOM_INTERVAL_NUMBER_MAX: int := 10

  /** Open on degenerate input: other checks of the form cover that. */
  predicate ScheduleFitsExpiry(interval: int, buys: int, window: int) {
    interval <= 0 || buys <= 0 || window <= 0 || interval * buys <= window
  }

  function Clamp(n: int, low: int, high: int): int {
    if n < low then low else if high < n then high else n
  }

  datatype IntervalUnit = Hours | Days

  function CustomInterval(n: int, unit: IntervalUnit): nat {
    Clamp(n, 1, CUSTOM_INTERVAL_NUMBER_MAX) * if unit.Hours? then SECONDS_PER_HOUR else SECONDS_PER_DAY
  }

  /** The schedule plus slack for the keeper, but never more than the longest expiry there is. */
  function CustomExpiry(interval: nat, buys: nat): nat {
    var tenth := (interval + 5) / 10;
    var derived := interval * buys + if tenth < SECONDS_PER_HOUR then SECONDS_PER_HOUR else tenth;
    var cap := MAX_EXPIRY_DAYS * SECONDS_PER_DAY;
    if derived < cap then derived else cap
  }

  /** With the derived expiry the guard rejects exactly the schedules longer than the longest expiry. */
  lemma CustomScheduleAccepted(interval: nat, buys: nat)
    ensures ScheduleFitsExpiry(interval, buys, CustomExpiry(interval, buys))
       <==> interval * buys <= MAX_EXPIRY_DAYS * SECONDS_PER_DAY
  {
    if interval == 0 || buys == 0 {
      assert interval * buys == 0;
    }
  }

  /**
   * Unless capped at ninety days, the derived expiry leaves the larger of an hour and a tenth of the interval, rounded
   * half up, beyond the whole schedule.
   */
  lemma CustomExpiryLeavesRoom(interval: nat, buys: nat)
    ensures
      var expiry := CustomExpiry(interval, buys);
      var room := expiry - interval * buys;
      && expiry <= 7_776_000
      && (expiry < 7_776_000 ==> room == 3600 || (3600 < room && interval - 5 < 10 * room <= interval + 5))
      && (expiry < 7_776_000 && room == 3600 ==> interval < 36_005)
  {
    DivBounds(interval + 5, 10);
  }

  /** Whatever is typed in: an hourly schedule is never rejected, a daily one exactly beyond ninety buy-days. */
  lemma CustomInputAccepted(n: int, unit: IntervalUnit, rawBuys: int)
    ensures
      var number, buys := Clamp(n, 1, CUSTOM_INTERVAL_NUMBER_MAX), Clamp(rawBuys, 1, CUSTOM_BUYS_MAX);
      ScheduleFitsExpiry(CustomInterval(n, unit), buys, CustomExpiry(CustomInterval(n, unit), buys))
      <==> unit.Hours? || number * buys <= 90
  {
    var number, buys := Clamp(n, 1, CUSTOM_INTERVAL_NUMBER_MAX), Clamp(rawBuys, 1, CUSTOM_BUYS_MAX);
    CustomScheduleAccepted(CustomInterval(n, unit), buys);
    Scale(number, buys, CUSTOM_BUYS_MAX);
    assert (number * SECONDS_PER_HOUR) * buys == SECONDS_PER_HOUR * (number * buys);
    assert (number * SECONDS_PER_DAY) * buys == SECONDS_PER_DAY * (number * buys);
  }

  // ── What the contract needs of an order to fill it at all ──

  /** A DCA order between two tokens, not the contract's own or its router's, whose numbers stay in range. */
  predicate Fillable(d: Deployment, order: Order) {
    && order.orderType.DCA? && order.tokenIn != order.tokenOut && order.owner != d.self && order.router != d.self
    && order.maxSlippageBps <= MAX_ORDER_SLIPPAGE_BPS && order.minAmountOut != 0
    && 0 < order.dcaInterval && 0 < order.dcaTotal
    && MIN_ORDER_AMOUNT <= PerChunk(order.amountIn, order.dcaTotal)
    && InRange(order)
  }

  predicate InRange(order: Order) {
    && order.amountIn * order.dcaTotal < WORD && order.amountIn * FEE_BPS < WORD
    && order.expiry + order.dcaInterval < WORD
  }

  function Chunk(order: Order, k: nat): nat
    requires k < order.dcaTotal
  {
    ChunkInRange(order.amountIn, order.dcaTotal, k);
    ChunkSize(order.amountIn, order.dcaTotal, k)
  }

  function Fee(amount: nat): nat {
    amount * FEE_BPS / BPS_DENOMINATOR
  }

  /** The input still to come after `k` fills. */
  function Remaining(order: Order, k: nat): int
    requires 0 < order.dcaTotal && k <= order.dcaTotal
  {
    order.amountIn - Cumulative(order.amountIn, order.dcaTotal, k)
  }

  /** Everything outside the clock, the feeds and the router is in place: settings, funds and approval. */
  predicate Ready(d: Deployment, s: State, order: Order, caller: Address, k: nat)
    requires 0 < order.dcaTotal
  {
    && k <= order.dcaTotal && s.Executions(order) == k
    && caller in s.gov.executors && !s.gov.paused && order.router in s.gov.routers
    && order !in s.cancelledOrders
    && Remaining(order, k) <= s.ledger.Balance(order.tokenIn, order.owner)
    && Remaining(order, k) <= s.ledger.Allowance(order.tokenIn, order.owner, d.self)
  }

  /** The floor of fill `k` under given feed answers. */
  function FloorOf(d: Deployment, gov: Governance, feeds: FeedTable, now: nat, order: Order, k: nat): Result<nat>
    requires Fillable(d, order) && k < order.dcaTotal
  {
    OutputFloor(d, gov, feeds, now, order, Chunk(order, k), Chunk(order, k) - Fee(Chunk(order, k)))
  }

  /** What the feeds answer for one fill, and the floor that makes. */
  datatype Quote = Quote(feeds: FeedTable, floor: nat)

  /** The feeds' answers, whatever they are, let fill `k` through: its trigger is met and this is its floor. */
  predicate Priced(d: Deployment, gov: Governance, quote: Quote, now: nat, order: Order, k: nat)
    requires Fillable(d, order) && k < order.dcaTotal
  {
    && PriceOk(gov.oracleConfigs, quote.feeds, now, order) == Ok(true)
    && FloorOf(d, gov, quote.feeds, now, order, k) == Ok(quote.floor)
  }

  /** The keeper's call for fill `k`, with a router that takes the net input and pays just the floor. */
  function KeeperCall(order: Order, caller: Address, k: nat, now: nat, quote: Quote): Tx
    requires k < order.dcaTotal
  {
    var chunk := Chunk(order, k);
    Tx(now, quote.feeds, Execute(caller, order, order.owner, [],
      Swap(true, chunk - Fee(chunk), quote.floor, 0, true)))
  }

  lemma ChunkRemains(order: Order, k: nat)
    requires k < order.dcaTotal
    ensures Remaining(order, k + 1) == Remaining(order, k) - Chunk(order, k)
    ensures 0 <= Remaining(order, k + 1)
  {
    ChunkIsDifference(order.amountIn, order.dcaTotal, k);
    CumulativeGrows(order.amountIn, order.dcaTotal, k);
  }

  lemma ChunkStaysInRange(order: Order, k: nat)
    requires k < order.dcaTotal && InRange(order)
    ensures order.amountIn * (k + 1) < WORD && Chunk(order, k) * FEE_BPS < WORD
  {
    ChunkInRange(order.amountIn, order.dcaTotal, k);
    Scale(order.amountIn, k + 1, order.dcaTotal);
  }

  /** A ready order is admitted on time, for the chunk whose turn it is. */
  lemma KeeperIsAdmitted(d: Deployment, s: State, order: Order, caller: Address, k: nat, now: nat)
    requires Fillable(d, order) && k < order.dcaTotal && Ready(d, s, order, caller, k)
    requires s.LastExecution(order) + order.dcaInterval <= now <= order.expiry
    ensures Admit(s, now, caller, order, order.owner, []) == Ok((s, Chunk(order, k)))
  {
    hide Cumulative;
    ChunkStaysInRange(order, k);
    Scale(order.dcaTotal, order.amountIn / order.dcaTotal, order.amountIn);
    DivBounds(order.amountIn, order.dcaTotal);
  }

  /** A router that takes exactly the net amount and pays exactly the floor settles. */
  lemma PlainSettlement(d: Deployment, l: Ledger, order: Order, amount: nat, fee: nat, floor: nat)
    requires order.tokenIn != order.tokenOut && order.owner != d.self && order.router != d.self
    requires CanPull(d, l, order, amount) && fee <= amount
    requires floor <= l.Balance(order.tokenOut, order.router) && floor < WORD
    ensures Settle(d, l, order, amount, fee, floor, Swap(true, amount - fee, floor, 0, true)).Ok?
    ensures
      var settled := Settle(d, l, order, amount, fee, floor, Swap(true, amount - fee, floor, 0, true)).value;
      settled.tokenOut == floor && settled.ethOut == 0
  {
    hide RefundDust;
    var swap := Swap(true, amount - fee, floor, 0, true);
    var funded := Fund(d, l, order, amount, fee);
    FundedBalances(d, l, order, amount, fee, order.tokenIn, d.self);
    FundedBalances(d, l, order, amount, fee, order.tokenOut, order.router);
    RouterPays(d, funded, order, swap);
    SwappedBalances(d, funded, order, swap, order.tokenOut, d.self);
  }

  lemma RouterPays(d: Deployment, l: Ledger, order: Order, swap: Swap)
    requires order.tokenIn != order.tokenOut && swap.ok
    requires swap.spent <= l.Balance(order.tokenIn, d.self)
    requires swap.spent <= l.Allowance(order.tokenIn, d.self, order.router)
    requires swap.out <= l.Balance(order.tokenOut, order.router)
    ensures RouterCall(d, l, order, swap).Ok?
  {
  }

  lemma FloorFits(d: Deployment, gov: Governance, feeds: FeedTable, now: nat, order: Order, amount: nat, net: nat)
    requires 0 < order.amountIn && order.maxSlippageBps <= BPS_DENOMINATOR && order.orderType.DCA?
    requires OutputFloor(d, gov, feeds, now, order, amount, net).Ok?
    ensures OutputFloor(d, gov, feeds, now, order, amount, net).value < WORD
  {
    hide FairValueOut;
    QuotientBelow(order.minAmountOut * amount, order.amountIn);
  }

  lemma QuotientBelow(a: nat, b: nat)
    requires 0 < b
    ensures a / b <= a
  {
    DivBounds(a, b);
    Scale(a / b, 1, b);
  }

  /** The keeper's call goes through, for exactly the chunk, the fee and the floor it should have. */
  lemma KeeperCallFills(
    d: Deployment, s: State, order: Order, caller: Address, k: nat, now: nat, quote: Quote)
    requires Fillable(d, order) && k < order.dcaTotal && Ready(d, s, order, caller, k)
    requires s.LastExecution(order) + order.dcaInterval <= now <= order.expiry
    requires Priced(d, s.gov, quote, now, order, k)
    requires quote.floor <= s.ledger.Balance(order.tokenOut, order.router)
    ensures
      Filled(d, s, KeeperCall(order, caller, k, now, quote))
      == Some(Receipt(order, Chunk(order, k), Fee(Chunk(order, k)), quote.floor, quote.floor, 0, now))
  {
    hide Admit, OutputFloor, Settle, Cumulative, PriceOk, Chunk, InRange;
    var chunk := Chunk(order, k);
    ChunkRemains(order, k);
    ChunkStaysInRange(order, k);
    KeeperIsAdmitted(d, s, order, caller, k, now);
    FloorFits(d, s.gov, quote.feeds, now, order, chunk, chunk - Fee(chunk));
    PlainSettlement(d, s.ledger, order, chunk, Fee(chunk), quote.floor);
  }

  /** It leaves the order ready for the next one and costs the router at most the floor. */
  lemma KeeperStaysReady(
    d: Deployment, s: State, order: Order, caller: Address, k: nat, now: nat, quote: Quote)
    requires Fillable(d, order) && k < order.dcaTotal && Ready(d, s, order, caller, k)
    requires s.LastExecution(order) + order.dcaInterval <= now <= order.expiry
    requires Priced(d, s.gov, quote, now, order, k)
    requires quote.floor <= s.ledger.Balance(order.tokenOut, order.router)
    ensures
      var after := Step(d, s, KeeperCall(order, caller, k, now, quote));
      && Ready(d, after, order, caller, k + 1) && after.LastExecution(order) == now && after.gov == s.gov
      && s.ledger.Balance(order.tokenOut, order.router)
         <= after.ledger.Balance(order.tokenOut, order.router) + quote.floor
  {
    hide Apply, Remaining, Chunk, Priced, Fee;
    var tx := KeeperCall(order, caller, k, now, quote);
    KeeperCallFills(d, s, order, caller, k, now, quote);
    DcaFill(d, s, tx);
    FillLeavesSettings(d, s, tx);
    AllowanceStep(d, s, tx, order);
    FilledOrderBalanceSheet(d, s, tx, order.tokenIn, order.owner);
    FilledOrderBalanceSheet(d, s, tx, order.tokenOut, order.router);
    ChunkRemains(order, k);
  }

  lemma FillLeavesSettings(d: Deployment, s: State, tx: Tx)
    requires Filled(d, s, tx).Some?
    ensures Step(d, s, tx).gov == s.gov && Step(d, s, tx).cancelledOrders == s.cancelledOrders
  {
    hide ExecuteOrder;
    var call := tx.call;
    FillFrame(d, s, tx.feeds, tx.now, call.caller, call.order, call.signer, call.routerData, call.swap);
  }

  // ── Runs of the keeper ──

  /** A run that starts at `start` and fills the order completely. */
  ghost predicate Completes(d: Deployment, s: State, txs: seq<Tx>, order: Order, start: nat) {
    && Chronological(txs)
    && (forall tx :: tx in txs ==> start <= tx.now)
    && Run(d, s, txs).Executions(order) == order.dcaTotal
  }

  /** One quote for each fill, an interval apart, and each lets its fill through. */
  predicate AllPriced(d: Deployment, gov: Governance, order: Order, start: nat, quotes: seq<Quote>)
    requires Fillable(d, order)
  {
    && |quotes| <= order.dcaTotal
    && forall k :: 0 <= k < |quotes| ==> Priced(d, gov, quotes[k], start + k * order.dcaInterval, order, k)
  }

  /** What the router has to have for all these fills. */
  function Floors(quotes: seq<Quote>): nat {
    if quotes == [] then 0 else Floors(quotes[..|quotes| - 1]) + quotes[|quotes| - 1].floor
  }

  /** One keeper call every interval, on the dot. */
  function KeeperRun(order: Order, caller: Address, start: nat, quotes: seq<Quote>): (txs: seq<Tx>)
    requires |quotes| <= order.dcaTotal
    ensures |txs| == |quotes|
  {
    if quotes == [] then []
    else
      var last := |quotes| - 1;
      KeeperRun(order, caller, start, quotes[..last])
      + [KeeperCall(order, caller, last, start + last * order.dcaInterval, quotes[last])]
  }

  lemma {:induction false} KeeperRunTimes(order: Order, caller: Address, start: nat, quotes: seq<Quote>)
    requires |quotes| <= order.dcaTotal
    ensures forall i :: 0 <= i < |quotes| ==>
        KeeperRun(order, caller, start, quotes)[i].now == start + i * order.dcaInterval
  {
    hide Chunk;
    if quotes != [] {
      KeeperRunTimes(order, caller, start, quotes[..|quotes| - 1]);
    }
  }

  lemma KeeperRunChronological(order: Order, caller: Address, start: nat, quotes: seq<Quote>)
    requires |quotes| <= order.dcaTotal
    ensures Chronological(KeeperRun(order, caller, start, quotes))
    ensures forall tx :: tx in KeeperRun(order, caller, start, quotes) ==> start <= tx.now
  {
    hide KeeperRun;
    var txs := KeeperRun(order, caller, start, quotes);
    KeeperRunTimes(order, caller, start, quotes);
    forall i, j | 0 <= i < j < |txs|
      ensures txs[i].now <= txs[j].now
    {
      Scale(order.dcaInterval, i, j);
    }
  }

  lemma NextInterval(start: nat, interval: nat, k: nat)
    requires 0 < k
    ensures start + k * interval == start + (k - 1) * interval + interval
  {
  }

  /**
   * Whatever the feeds answer, as long as every fill has a floor and the router can pay them all: calls an interval
   * apart make one fill each.
   */
  lemma {:induction false} KeeperRunFills(
    d: Deployment, s: State, order: Order, caller: Address, start: nat, quotes: seq<Quote>)
    requires Fillable(d, order) && Ready(d, s, order, caller, 0) && AllPriced(d, s.gov, order, start, quotes)
    requires Floors(quotes) <= s.ledger.Balance(order.tokenOut, order.router)
    requires s.LastExecution(order) + order.dcaInterval <= start
    requires quotes != [] ==> start + (|quotes| - 1) * order.dcaInterval <= order.expiry
    ensures
      var after := Run(d, s, KeeperRun(order, caller, start, quotes));
      && Ready(d, after, order, caller, |quotes|) && after.gov == s.gov
      && after.LastExecution(order)
         == (if quotes == [] then s.LastExecution(order) else start + (|quotes| - 1) * order.dcaInterval)
      && s.ledger.Balance(order.tokenOut, order.router)
         <= after.ledger.Balance(order.tokenOut, order.router) + Floors(quotes)
  {
    hide Apply, KeeperCall, Ready, Fillable, Priced;
    if quotes != [] {
      var last := |quotes| - 1;
      var earlier := KeeperRun(order, caller, start, quotes[..last]);
      if 0 < last {
        NextInterval(start, order.dcaInterval, last);
      }
      KeeperRunFills(d, s, order, caller, start, quotes[..last]);
      assert KeeperRun(order, caller, start, quotes)[..last] == earlier;
      KeeperStaysReady(d, Run(d, s, earlier), order, caller, last, start + last * order.dcaInterval, quotes[last]);
    }
  }

  /** With a floor for every fill and a router that can pay them, the run completes the order. */
  lemma KeeperRunCompletes(d: Deployment, s: State, order: Order, caller: Address, start: nat, quotes: seq<Quote>)
    requires Fillable(d, order) && Ready(d, s, order, caller, 0) && AllPriced(d, s.gov, order, start, quotes)
    requires |quotes| == order.dcaTotal && Floors(quotes) <= s.ledger.Balance(order.tokenOut, order.router)
    requires s.LastExecution(order) + order.dcaInterval <= start
    requires start + (order.dcaTotal - 1) * order.dcaInterval <= order.expiry
    ensures Completes(d, s, KeeperRun(order, caller, start, quotes), order, start)
  {
    hide Apply, KeeperRun, AllPriced, Floors, Remaining;
    KeeperRunFills(d, s, order, caller, start, quotes);
    KeeperRunChronological(order, caller, start, quotes);
  }

  // ── What the guard is worth ──

  lemma {:induction false} FillsNotBefore(d: Deployment, s: State, txs: seq<Tx>, order: Order, start: nat)
    requires order.orderType.DCA? && forall tx :: tx in txs ==> start <= tx.now
    ensures forall r :: r in FillsOf(Receipts(d, s, txs), order) ==> start <= r.at
  {
    hide Apply;
    if txs != [] {
      var earlier, tx := txs[..|txs| - 1], txs[|txs| - 1];
      FillsNotBefore(d, s, earlier, order, start);
      FillsStep(d, s, txs, order);
      if Filled(d, Run(d, s, earlier), tx).Some? && Filled(d, Run(d, s, earlier), tx).value.order == order {
        DcaFill(d, Run(d, s, earlier), tx);
      }
    }
  }

  lemma {:induction false} SpacedSpan(times: seq<nat>, gap: nat, i: nat)
    requires Spaced(times, gap) && i < |times|
    ensures times[0] + i * gap <= times[i]
  {
    if i > 0 {
      SpacedSpan(times, gap, i - 1);
      assert i * gap == (i - 1) * gap + gap;
    }
  }

  lemma CompletionTakesTime(d: Deployment, s: State, txs: seq<Tx>, order: Order, start: nat)
    requires order.orderType.DCA? && s.Executions(order) == 0 && 0 < order.dcaTotal
    requires Completes(d, s, txs, order, start)
    ensures start + (order.dcaTotal - 1) * order.dcaInterval <= order.expiry
  {
    var fills := FillsOf(Receipts(d, s, txs), order);
    InputPulledIsExact(d, s, txs, order);
    FillsKeepTheSchedule(d, s, txs, order);
    FillsNotBefore(d, s, txs, order, start);
    assert fills[0] in fills;
    SpacedSpan(FillTimes(fills), order.dcaInterval, order.dcaTotal - 1);
  }

  /** Answers without a usable price: no price on either leg, and a sequencer that is down where there is one. */
  function Silence(d: Deployment, gov: Governance, order: Order): FeedTable {
    var silent := Round(0, 0, 0, 0, 0, 8);
    map[d.sequencerFeed := silent, FeedFor(gov, order.tokenIn) := silent, FeedFor(gov, order.tokenOut) := silent]
  }

  function FeedFor(gov: Governance, token: Address): Address {
    if token in gov.tokenUsdFeeds then gov.tokenUsdFeeds[token].feed else ZERO_ADDRESS
  }

  /** What the signed minimum has to be for every fill to have a floor in range. */
  predicate MinimumReaches(order: Order) {
    && order.amountIn <= order.minAmountOut * PerChunk(order.amountIn, order.dcaTotal)
    && order.minAmountOut * order.amountIn < WORD
  }

  /** Whatever is registered, feeds that say nothing leave the signed minimum as the floor. */
  lemma SilentFloor(d: Deployment, gov: Governance, now: nat, order: Order, amount: nat, net: nat)
    requires 0 < order.amountIn && order.maxSlippageBps <= BPS_DENOMINATOR && order.orderType.DCA?
    requires 0 < ScaledMin(order.minAmountOut, amount, order.amountIn) && order.minAmountOut * amount < WORD
    ensures OutputFloor(d, gov, Silence(d, gov, order), now, order, amount, net)
         == Ok(ScaledMin(order.minAmountOut, amount, order.amountIn))
  {
  }

  lemma ChunkReaches(order: Order, k: nat)
    requires 0 < order.amountIn && k < order.dcaTotal && MinimumReaches(order)
    ensures 0 < ScaledMin(order.minAmountOut, Chunk(order, k), order.amountIn)
    ensures order.minAmountOut * Chunk(order, k) < WORD
  {
    var total, n, minOut, chunk := order.amountIn, order.dcaTotal, order.minAmountOut, Chunk(order, k);
    ChunkInRange(total, n, k);
    ChunkIsFloorOrCeiling(total, n, k);
    Scale(minOut, PerChunk(total, n), chunk);
    Scale(minOut, chunk, total);
    DivAtLeast(minOut * chunk, total, 1);
  }

  /** Silent feeds for fill `k`. */
  function SilentQuote(d: Deployment, gov: Governance, order: Order, k: nat): Quote
    requires 0 < order.amountIn && k < order.dcaTotal
  {
    Quote(Silence(d, gov, order), ScaledMin(order.minAmountOut, Chunk(order, k), order.amountIn))
  }

  function SilentQuotes(d: Deployment, gov: Governance, order: Order, k: nat): (quotes: seq<Quote>)
    requires 0 < order.amountIn && k <= order.dcaTotal
    ensures |quotes| == k
  {
    if k == 0 then [] else SilentQuotes(d, gov, order, k - 1) + [SilentQuote(d, gov, order, k - 1)]
  }

  /** The scaled minimums of the first `k` fills are worth at most their share of the signed minimum. */
  lemma {:induction false} SilentFloors(d: Deployment, gov: Governance, order: Order, k: nat)
    requires 0 < order.amountIn && 0 < order.dcaTotal && k <= order.dcaTotal
    ensures order.amountIn * Floors(SilentQuotes(d, gov, order, k))
         <= order.minAmountOut * Cumulative(order.amountIn, order.dcaTotal, k)
  {
    var total, n, minOut := order.amountIn, order.dcaTotal, order.minAmountOut;
    CumulativeEnds(total, n);
    if k > 0 {
      SilentFloors(d, gov, order, k - 1);
      var chunk, before := Chunk(order, k - 1), SilentQuotes(d, gov, order, k - 1);
      assert (before + [SilentQuote(d, gov, order, k - 1)])[..k - 1] == before;
      ChunkIsDifference(total, n, k - 1);
      DivBounds(minOut * chunk, total);
      Distribute(minOut, Cumulative(total, n, k - 1), chunk);
      Distribute(total, Floors(before), ScaledMin(minOut, chunk, total));
    }
  }

  lemma SilentlyPriced(d: Deployment, gov: Governance, now: nat, order: Order, k: nat)
    requires Fillable(d, order) && MinimumReaches(order) && order.priceFeed == ZERO_ADDRESS && k < order.dcaTotal
    requires 0 < order.amountIn
    ensures Priced(d, gov, SilentQuote(d, gov, order, k), now, order, k)
  {
    hide OutputFloor, MinimumReaches, Chunk, ScaledMin;
    ChunkReaches(order, k);
    SilentFloor(d, gov, now, order, Chunk(order, k), Chunk(order, k) - Fee(Chunk(order, k)));
  }

  lemma {:induction false} SilentRun(d: Deployment, gov: Governance, order: Order, start: nat, k: nat)
    requires Fillable(d, order) && MinimumReaches(order) && order.priceFeed == ZERO_ADDRESS && k <= order.dcaTotal
    requires 0 < order.amountIn
    ensures AllPriced(d, gov, order, start, SilentQuotes(d, gov, order, k))
  {
    hide Priced, Fillable, MinimumReaches, SilentQuote;
    if k > 0 {
      SilentRun(d, gov, order, start, k - 1);
      SilentlyPriced(d, gov, start + (k - 1) * order.dcaInterval, order, k - 1);
    }
  }

  lemma SilentFloorsFit(d: Deployment, gov: Governance, order: Order)
    requires 0 < order.amountIn && 0 < order.dcaTotal
    ensures Floors(SilentQuotes(d, gov, order, order.dcaTotal)) <= order.minAmountOut
  {
    hide Floors, SilentQuotes;
    SilentFloors(d, gov, order, order.dcaTotal);
    CumulativeEnds(order.amountIn, order.dcaTotal);
    Scale(order.amountIn, Floors(SilentQuotes(d, gov, order, order.dcaTotal)), order.minAmountOut);
  }

  lemma SomethingToSpend(d: Deployment, order: Order)
    requires Fillable(d, order)
    ensures 0 < order.amountIn
  {
  }

  /**
   * The exact condition, whatever feeds are registered: an order can be completed from `start` on iff all but one of
   * its intervals fit before the expiry.
   */
  lemma CompletableExactly(d: Deployment, s: State, order: Order, caller: Address, start: nat)
    requires Fillable(d, order) && Ready(d, s, order, caller, 0) && order.priceFeed == ZERO_ADDRESS
    requires MinimumReaches(order) && order.minAmountOut <= s.ledger.Balance(order.tokenOut, order.router)
    requires s.LastExecution(order) + order.dcaInterval <= start
    ensures (exists txs :: Completes(d, s, txs, order, start))
       <==> start + (order.dcaTotal - 1) * order.dcaInterval <= order.expiry
  {
    hide Apply, KeeperRun, Completes, AllPriced, Floors, MinimumReaches, InRange, Remaining;
    if start + (order.dcaTotal - 1) * order.dcaInterval <= order.expiry {
      SomethingToSpend(d, order);
      SilentRun(d, s.gov, order, start, order.dcaTotal);
      SilentFloorsFit(d, s.gov, order);
      KeeperRunCompletes(d, s, order, caller, start, SilentQuotes(d, s.gov, order, order.dcaTotal));
    }
    if txs :| Completes(d, s, txs, order, start) {
      CompletionTakesTime(d, s, txs, order, start);
    }
  }

  /**
   * Every order the guard lets through can be completed, with one interval to spare; the ones it stops needlessly are
   * exactly those that would have finished within that last interval. Without a window the guard is open, and only a
   * single fill can make it.
   */
  lemma GuardIsOneIntervalStrict(d: Deployment, s: State, order: Order, caller: Address, start: nat, window: nat)
    requires Fillable(d, order) && Ready(d, s, order, caller, 0) && order.priceFeed == ZERO_ADDRESS
    requires MinimumReaches(order) && order.minAmountOut <= s.ledger.Balance(order.tokenOut, order.router)
    requires s.LastExecution(order) + order.dcaInterval <= start
    requires order.expiry == start + window
    ensures
      var completable := exists txs :: Completes(d, s, txs, order, start);
      var fits := ScheduleFitsExpiry(order.dcaInterval, order.dcaTotal, window);
      && (0 < window && fits ==> completable)
      && (0 < window ==>
            (!fits && completable
             <==> (order.dcaTotal - 1) * order.dcaInterval <= window < order.dcaTotal * order.dcaInterval))
      && (window == 0 ==> fits && (completable <==> order.dcaTotal == 1))
  {
    hide Completes, Ready, MinimumReaches, InRange;
    CompletableExactly(d, s, order, caller, start);
    OneIntervalLess(order.dcaTotal, order.dcaInterval);
    if 1 < order.dcaTotal {
      ProductPositive(order.dcaTotal - 1, order.dcaInterval);
    }
  }

  lemma OneIntervalLess(n: nat, interval: nat)
    ensures n * interval == (n - 1) * interval + interval && interval * n == n * interval
  {
  }
}
