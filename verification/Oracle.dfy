/** Chainlink reads at execution: the trigger condition and the fair value the output floor rests on. */
module Oracle {
  import opened Ledger
  import opened ExecutorTypes
  import opened FloorDivision

  function Pow10(n: nat): (p: nat)
    ensures 0 < p
  {
    if n == 0 then 1 else 10 * Pow10(n - 1)
  }

  /** True unless a configured L2 sequencer feed reports the sequencer down or only just back. */
  function SequencerUp(sequencerFeed: Address, feeds: FeedTable, now: nat): Result<bool> {
    if sequencerFeed == ZERO_ADDRESS then Ok(true)
    else
      var _ :- Check(sequencerFeed in feeds, NoCode);
      var round := feeds[sequencerFeed];
      if round.answer != 0 || round.startedAt == 0 then Ok(false)
      else
        var age :- Elapsed(now, round.startedAt);
        Ok(SEQUENCER_GRACE_PERIOD < age)
  }

  /** Zero asks for the global limit. */
  function StalenessLimit(configured: nat): nat {
    if 0 < configured then configured else MAX_STALENESS
  }

  /** A token's USD price with the feed's decimals, or `None` when the registry or the feed has nothing usable. */
  function ReadFeedUsd(registry: map<Address, TokenUsdFeed>, feeds: FeedTable, now: nat, token: Address)
    : Result<Option<(nat, nat)>>
  {
    if token !in registry then Ok(None)
    else
      var cfg := registry[token];
      var _ :- Check(cfg.feed in feeds, NoCode);
      var round := feeds[cfg.feed];
      if round.answer <= 0 then Ok(None)
      else
        var age :- Elapsed(now, round.updatedAt);
        var limit := StalenessLimit(cfg.maxStaleness);
        if limit < age || round.answeredInRound < round.roundId then Ok(None)
        else Ok(Some((round.answer, cfg.feedDecimals)))
  }

  /** Full-precision `a * b / c`; only the result has to fit a word. */
  function MulDiv(a: nat, b: nat, c: nat): Result<nat>
    requires 0 < c
  {
    Checked(a * b / c)
  }

  /** Price scaled to 18 decimals. */
  function Price18(price: nat, decimals: nat): Result<nat> {
    var _ :- Check(decimals <= 18, Panic);
    Checked(price * Pow10(18 - decimals))
  }

  /** Fair output for `amountIn`, priced through both legs' USD feeds; `None` means there is no usable feed. */
  function FairValueOut(
    sequencerFeed: Address, registry: map<Address, TokenUsdFeed>, feeds: FeedTable, now: nat,
    tokenIn: Address, tokenOut: Address, amountIn: nat): Result<Option<nat>>
  {
    if amountIn == 0 then Ok(None)
    else
      var up :- SequencerUp(sequencerFeed, feeds, now);
      if !up then Ok(None)
      else
        var readIn :- ReadFeedUsd(registry, feeds, now, tokenIn);
        var readOut :- ReadFeedUsd(registry, feeds, now, tokenOut);
        if readIn.None? || readOut.None? then Ok(None)
        else
          var priceIn :- Price18(readIn.value.0, readIn.value.1);
          var priceOut :- Price18(readOut.value.0, readOut.value.1);
          if priceOut == 0 then Ok(None)
          else
            var usd :- MulDiv(amountIn, priceIn, Pow10(registry[tokenIn].tokenDecimals));
            var fair :- MulDiv(usd, Pow10(registry[tokenOut].tokenDecimals), priceOut);
            Ok(Some(fair))
  }

  /** Whether the order's trigger is met; a failed integrity check counts as not met. */
  function PriceOk(configs: map<Address, OracleConfig>, feeds: FeedTable, now: nat, order: Order): Result<bool> {
    if order.priceFeed == ZERO_ADDRESS then Ok(true)
    else
      var _ :- Check(order.priceFeed in feeds, NoCode);
      var round := feeds[order.priceFeed];
      if round.answer <= 0 then Ok(false)
      else
        var age :- Elapsed(now, round.updatedAt);
        var registered := order.priceFeed in configs;
        var limit := StalenessLimit(if registered then configs[order.priceFeed].maxStaleness else 0);
        Ok(&& age <= limit
           && round.roundId <= round.answeredInRound
           && (registered ==>
                 && (0 < configs[order.priceFeed].minPrice ==> configs[order.priceFeed].minPrice <= round.answer)
                 && (0 < configs[order.priceFeed].maxPrice ==> round.answer <= configs[order.priceFeed].maxPrice))
           && if order.condition.ABOVE? then order.targetPrice <= round.answer else round.answer <= order.targetPrice)
  }

  // ── What a price rests on, in terms of the feeds' raw answers ──

  /** A feed answer the contract may rely on: positive, complete, and no older than the limit. */
  predicate Usable(round: Round, now: nat, limit: nat) {
    && 0 < round.answer
    && 0 <= now - round.updatedAt <= limit
    && round.roundId <= round.answeredInRound
  }

  /** Five minutes unless configured otherwise. */
  function AgeLimit(configured: nat): nat {
    if configured == 0 then 300 else configured
  }

  /** There is no sequencer to watch, or its feed says up in a round that began more than an hour ago. */
  predicate SequencerVouches(sequencerFeed: Address, feeds: FeedTable, now: nat) {
    sequencerFeed != ZERO_ADDRESS ==>
      && sequencerFeed in feeds
      && feeds[sequencerFeed].answer == 0 && 0 < feeds[sequencerFeed].startedAt
      && 3600 < now - feeds[sequencerFeed].startedAt
  }

  /** The token's registered feed gives a usable answer. */
  predicate LegVouches(registry: map<Address, TokenUsdFeed>, feeds: FeedTable, now: nat, token: Address) {
    && token in registry && registry[token].feed in feeds
    && Usable(feeds[registry[token].feed], now, AgeLimit(registry[token].maxStaleness))
  }

  /** Sequencer and both legs vouch for a price. */
  predicate Vouched(
    sequencerFeed: Address, registry: map<Address, TokenUsdFeed>, feeds: FeedTable, now: nat,
    tokenIn: Address, tokenOut: Address)
  {
    && SequencerVouches(sequencerFeed, feeds, now)
    && LegVouches(registry, feeds, now, tokenIn) && LegVouches(registry, feeds, now, tokenOut)
  }

  /** Nothing reads a feed without code or a timestamp in the future. */
  predicate Readable(
    sequencerFeed: Address, registry: map<Address, TokenUsdFeed>, feeds: FeedTable, now: nat,
    tokenIn: Address, tokenOut: Address)
  {
    && (sequencerFeed != ZERO_ADDRESS ==> sequencerFeed in feeds && feeds[sequencerFeed].startedAt <= now)
    && forall token :: token == tokenIn || token == tokenOut ==>
         token in registry ==> registry[token].feed in feeds && feeds[registry[token].feed].updatedAt <= now
  }

  /** A leg's price in units of 1e-18 dollars, whatever the feed's own decimals. */
  function DollarPrice(registry: map<Address, TokenUsdFeed>, feeds: FeedTable, now: nat, token: Address): (p: nat)
    requires LegVouches(registry, feeds, now, token) && registry[token].feedDecimals <= 18
    ensures 0 < p
  {
    ProductPositive(feeds[registry[token].feed].answer, Pow10(18 - registry[token].feedDecimals));
    feeds[registry[token].feed].answer * Pow10(18 - registry[token].feedDecimals)
  }

  /** The contract's fair value: two floored steps. */
  function FairValue(amount: nat, srcDecimals: nat, dstDecimals: nat, priceIn: nat, priceOut: nat): nat
    requires 0 < priceOut
  {
    MulDivFloor(MulDivFloor(amount, priceIn, Pow10(srcDecimals)), Pow10(dstDecimals), priceOut)
  }

  /** Prices and both steps of the fair value fit a word. */
  predicate FairValueFits(
    registry: map<Address, TokenUsdFeed>, feeds: FeedTable, now: nat, tokenIn: Address, tokenOut: Address, amount: nat)
    requires LegVouches(registry, feeds, now, tokenIn) && LegVouches(registry, feeds, now, tokenOut)
  {
    && registry[tokenIn].feedDecimals <= 18 && registry[tokenOut].feedDecimals <= 18
    && var priceIn, priceOut := DollarPrice(registry, feeds, now, tokenIn), DollarPrice(registry, feeds, now, tokenOut);
    && priceIn < WORD && priceOut < WORD
    && MulDivFloor(amount, priceIn, Pow10(registry[tokenIn].tokenDecimals)) < WORD
    && FairValue(amount, registry[tokenIn].tokenDecimals, registry[tokenOut].tokenDecimals, priceIn, priceOut) < WORD
  }

  lemma SequencerUpExactly(sequencerFeed: Address, feeds: FeedTable, now: nat)
    ensures SequencerUp(sequencerFeed, feeds, now) == Ok(true) <==> SequencerVouches(sequencerFeed, feeds, now)
    ensures SequencerUp(sequencerFeed, feeds, now).Err? ==>
              sequencerFeed != ZERO_ADDRESS && (sequencerFeed !in feeds || now < feeds[sequencerFeed].startedAt)
  {
  }

  lemma ReadFeedExactly(registry: map<Address, TokenUsdFeed>, feeds: FeedTable, now: nat, token: Address)
    ensures
      var read := ReadFeedUsd(registry, feeds, now, token);
      && (LegVouches(registry, feeds, now, token) ==>
            read == Ok(Some((feeds[registry[token].feed].answer, registry[token].feedDecimals))))
      && (!LegVouches(registry, feeds, now, token) ==> read.Err? || read.value.None?)
      && (read.Err? ==>
            token in registry && (registry[token].feed !in feeds || now < feeds[registry[token].feed].updatedAt))
  {
  }

  /**
   * Exactly when there is a fair value, and what it is: a positive amount, everything vouched for, and arithmetic in
   * range. Where every feed can be read, nothing but a missing voucher makes the contract do without one.
   */
  lemma FairValueExactly(
    sequencerFeed: Address, registry: map<Address, TokenUsdFeed>, feeds: FeedTable, now: nat,
    tokenIn: Address, tokenOut: Address, amount: nat)
    ensures
      var r := FairValueOut(sequencerFeed, registry, feeds, now, tokenIn, tokenOut, amount);
      var vouched := Vouched(sequencerFeed, registry, feeds, now, tokenIn, tokenOut);
      && (r.Ok? && r.value.Some? <==>
            0 < amount && vouched && FairValueFits(registry, feeds, now, tokenIn, tokenOut, amount))
      && (r.Ok? && r.value.Some? ==>
            r.value.value == FairValue(amount, registry[tokenIn].tokenDecimals, registry[tokenOut].tokenDecimals,
                                       DollarPrice(registry, feeds, now, tokenIn),
                                       DollarPrice(registry, feeds, now, tokenOut)))
      && (r == Ok(None) ==> amount == 0 || !vouched)
      && (Readable(sequencerFeed, registry, feeds, now, tokenIn, tokenOut) && (amount == 0 || !vouched) ==>
            r == Ok(None))
  {
    hide SequencerUp, ReadFeedUsd, Pow10, SequencerVouches, LegVouches;
    SequencerUpExactly(sequencerFeed, feeds, now);
    ReadFeedExactly(registry, feeds, now, tokenIn);
    ReadFeedExactly(registry, feeds, now, tokenOut);
  }

  /**
   * The fair value against the exact value of the amount, the rational number `amount * priceIn * 10^dst` over
   * `priceOut * 10^src`: never more, and less by at most one unit plus `10^dst / priceOut`.
   */
  lemma FairValueIsClose(amount: nat, srcDecimals: nat, dstDecimals: nat, priceIn: nat, priceOut: nat)
    requires 0 < priceOut
    ensures
      var fair := FairValue(amount, srcDecimals, dstDecimals, priceIn, priceOut);
      var exact, unit := amount * priceIn * Pow10(dstDecimals), priceOut * Pow10(srcDecimals);
      fair * unit <= exact < (fair + 1) * unit + Pow10(srcDecimals) * Pow10(dstDecimals)
  {
    hide Pow10, MulDivFloor;
    var s, t := Pow10(srcDecimals), Pow10(dstDecimals);
    var u := MulDivFloor(amount, priceIn, s);
    MulDivBounds(amount, priceIn, s);
    MulDivBounds(u, t, priceOut);
    TwoFloors(amount * priceIn, s, t, priceOut, u, FairValue(amount, srcDecimals, dstDecimals, priceIn, priceOut));
  }

  lemma TwoFloors(x: nat, s: nat, t: nat, q: nat, u: nat, two: nat)
    requires s * u <= x < s * u + s && q * two <= u * t < q * two + q
    ensures two * (q * s) <= x * t
    ensures 0 < s && 0 < t ==> x * t < (two + 1) * (q * s) + s * t
  {
    QuotientBoundsTimes(x, s, u, t);
    QuotientBoundsTimes(u * t, q, two, s);
    Rearrange(s, u, t);
    Rearrange(q, two, s);
    Distribute(q * s, two, 1);
  }

  /**
   * A fair value always rests on a running sequencer and two registered feeds with usable answers, and never shrinks
   * with the amount.
   */
  lemma FairValueIsVouchedFor(
    sequencerFeed: Address, registry: map<Address, TokenUsdFeed>, feeds: FeedTable, now: nat,
    tokenIn: Address, tokenOut: Address, amount: nat, more: nat, fair: nat)
    requires FairValueOut(sequencerFeed, registry, feeds, now, tokenIn, tokenOut, amount) == Ok(Some(fair))
        && amount <= more
    ensures SequencerVouches(sequencerFeed, feeds, now)
    ensures forall token :: token == tokenIn || token == tokenOut ==>
              && token in registry && registry[token].feed in feeds
              && Usable(feeds[registry[token].feed], now, AgeLimit(registry[token].maxStaleness))
    ensures
      var r := FairValueOut(sequencerFeed, registry, feeds, now, tokenIn, tokenOut, more);
      r.Ok? ==> r.value.Some? && fair <= r.value.value
  {
    hide FairValueOut, Readable, SequencerVouches, Pow10, MulDivFloor;
    FairValueExactly(sequencerFeed, registry, feeds, now, tokenIn, tokenOut, amount);
    FairValueExactly(sequencerFeed, registry, feeds, now, tokenIn, tokenOut, more);
    FairValueMonotone(amount, more, registry[tokenIn].tokenDecimals, registry[tokenOut].tokenDecimals,
      DollarPrice(registry, feeds, now, tokenIn), DollarPrice(registry, feeds, now, tokenOut));
  }

  lemma FairValueMonotone(amount: nat, more: nat, srcDecimals: nat, dstDecimals: nat, priceIn: nat, priceOut: nat)
    requires amount <= more && 0 < priceOut
    ensures FairValue(amount, srcDecimals, dstDecimals, priceIn, priceOut)
         <= FairValue(more, srcDecimals, dstDecimals, priceIn, priceOut)
  {
    hide Pow10;
    QuotientMonotone(amount, more, priceIn, priceIn, Pow10(srcDecimals));
    QuotientMonotone(MulDivFloor(amount, priceIn, Pow10(srcDecimals)), MulDivFloor(more, priceIn, Pow10(srcDecimals)),
      Pow10(dstDecimals), Pow10(dstDecimals), priceOut);
  }

  /** The trigger feed's answer is usable, inside the configured bounds, and on the right side of the target. */
  predicate Triggered(configs: map<Address, OracleConfig>, feeds: FeedTable, now: nat, order: Order) {
    && order.priceFeed in feeds
    && var round, known := feeds[order.priceFeed], order.priceFeed in configs;
    && Usable(round, now, AgeLimit(if known then configs[order.priceFeed].maxStaleness else 0))
    && (known ==> configs[order.priceFeed].minPrice <= 0 || configs[order.priceFeed].minPrice <= round.answer)
    && (known ==> configs[order.priceFeed].maxPrice <= 0 || round.answer <= configs[order.priceFeed].maxPrice)
    && if order.condition.ABOVE? then order.targetPrice <= round.answer else round.answer <= order.targetPrice
  }

  /** The check passes exactly without a trigger feed or with a met trigger. */
  lemma PriceOkExactly(configs: map<Address, OracleConfig>, feeds: FeedTable, now: nat, order: Order)
    ensures PriceOk(configs, feeds, now, order) == Ok(true)
       <==> order.priceFeed == ZERO_ADDRESS || Triggered(configs, feeds, now, order)
    ensures PriceOk(configs, feeds, now, order).Err?
       <==> && order.priceFeed != ZERO_ADDRESS
            && (order.priceFeed !in feeds
                || (0 < feeds[order.priceFeed].answer && now < feeds[order.priceFeed].updatedAt))
  {
  }
}
