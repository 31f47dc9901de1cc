/**
 * The minimum output a DCA order is signed with: where it comes from, and what it is worth when the contract divides
 * it.
 */
module SigningFloor {
  import opened FloorDivision
  import opened ExecutorTypes
  import opened DcaChunks
  import opened Oracle

  datatype Tier = Chainlink | DefiLlama | Fallback

  /** A leg's price in USD times 1e8, rounded; `None` when that source has none. */
  type UsdPrice = Option<nat>

  datatype Pick = Pick(price: nat, tier: Tier)

  datatype SigningMin = SigningMin(minAmountOut: nat, hasFeed: bool, source: Tier)

  function PickPrice(chainlink: UsdPrice, defillama: UsdPrice): Option<Pick> {
    if chainlink.Some? then Some(Pick(chainlink.value, Chainlink))
    else if defillama.Some? then Some(Pick(defillama.value, DefiLlama))
    else None
  }

  function Weakest(a: Tier, b: Tier): Tier {
    if a == b then a else DefiLlama
  }

  /** Reference output for `amount`, floored once. */
  function Reference(amount: nat, srcDecimals: nat, dstDecimals: nat, priceIn: nat, priceOut: nat): nat
    requires 0 < priceOut
  {
    ProductPositive(priceOut, Pow10(srcDecimals));
    MulDivFloor(amount * priceIn, Pow10(dstDecimals), priceOut * Pow10(srcDecimals))
  }

  /** Reference output less the slippage, or nothing when a price or the result is zero. */
  function DerivedMin(
      amount: nat, srcDecimals: nat, dstDecimals: nat, priceIn: nat, priceOut: nat, slippageBps: nat): nat
    requires slippageBps <= BPS_DENOMINATOR
  {
    if amount == 0 || priceIn == 0 || priceOut == 0 then 0
    else MulDivFloor(Reference(amount, srcDecimals, dstDecimals, priceIn, priceOut), BPS_DENOMINATOR - slippageBps,
        BPS_DENOMINATOR)
  }

  function FallbackMin(dstDecimals: nat): nat {
    Pow10(if dstDecimals < 4 then 0 else dstDecimals - 4)
  }

  function DeriveSigningMin(
    amount: nat, srcDecimals: nat, dstDecimals: nat, slippageBps: nat,
    chainlinkIn: UsdPrice, chainlinkOut: UsdPrice, llamaIn: UsdPrice, llamaOut: UsdPrice): (r: SigningMin)
    requires slippageBps <= BPS_DENOMINATOR
  {
    var pickIn, pickOut := PickPrice(chainlinkIn, llamaIn), PickPrice(chainlinkOut, llamaOut);
    var derived := if pickIn.Some? && pickOut.Some? then
                     DerivedMin(amount, srcDecimals, dstDecimals, pickIn.value.price, pickOut.value.price, slippageBps)
                   else 0;
    if 0 < derived then SigningMin(derived, true, Weakest(pickIn.value.tier, pickOut.value.tier))
    else SigningMin(FallbackMin(dstDecimals), false, Fallback)
  }

  /**
   * Something is always signed; it is called price-derived only if both legs had a live price, and called by the weaker
   * of the two.
   */
  lemma SigningMinIsHonest(
    amount: nat, srcDecimals: nat, dstDecimals: nat, slippageBps: nat,
    chainlinkIn: UsdPrice, chainlinkOut: UsdPrice, llamaIn: UsdPrice, llamaOut: UsdPrice)
    requires slippageBps <= BPS_DENOMINATOR
    ensures
      var r :=
          DeriveSigningMin(amount, srcDecimals, dstDecimals, slippageBps, chainlinkIn, chainlinkOut, llamaIn, llamaOut);
      && 0 < r.minAmountOut
      && (r.hasFeed ==> (chainlinkIn.Some? || llamaIn.Some?) && (chainlinkOut.Some? || llamaOut.Some?))
      && (r.source == Chainlink ==> chainlinkIn.Some? && chainlinkOut.Some?)
      && (r.hasFeed && r.source == DefiLlama ==> chainlinkIn.None? || chainlinkOut.None?)
      && (r.hasFeed <==> r.source != Fallback)
      && (!r.hasFeed ==> r.minAmountOut == FallbackMin(dstDecimals))
  {
  }

  /** The price a leg is signed with: the Chainlink one, and without it the DefiLlama one. */
  function LivePrice(chainlink: UsdPrice, defillama: UsdPrice): UsdPrice {
    if chainlink.Some? then chainlink else defillama
  }

  /** The minimum before any rounding is the rational number `ExactNumerator / ExactDenominator`. */
  function ExactNumerator(amount: nat, dstDecimals: nat, priceIn: nat, slippageBps: nat): nat
    requires slippageBps <= BPS_DENOMINATOR
  {
    amount * priceIn * Pow10(dstDecimals) * (BPS_DENOMINATOR - slippageBps)
  }

  function ExactDenominator(srcDecimals: nat, priceOut: nat): nat {
    priceOut * Pow10(srcDecimals) * BPS_DENOMINATOR
  }

  lemma DerivedMinIsClose(
    amount: nat, srcDecimals: nat, dstDecimals: nat, priceIn: nat, priceOut: nat, slippageBps: nat)
    requires 0 < priceOut && slippageBps <= BPS_DENOMINATOR
    ensures
      var min := DerivedMin(amount, srcDecimals, dstDecimals, priceIn, priceOut, slippageBps);
      var numerator, denominator :=
        ExactNumerator(amount, dstDecimals, priceIn, slippageBps), ExactDenominator(srcDecimals, priceOut);
      min * denominator <= numerator < (min + 2) * denominator
  {
    hide Pow10, MulDivFloor;
    var b, kept := priceOut * Pow10(srcDecimals), BPS_DENOMINATOR - slippageBps;
    var reference := Reference(amount, srcDecimals, dstDecimals, priceIn, priceOut);
    ProductPositive(priceOut, Pow10(srcDecimals));
    MulDivBounds(amount * priceIn, Pow10(dstDecimals), b);
    MulDivBounds(reference, kept, BPS_DENOMINATOR);
    ScaledQuotient(amount * priceIn * Pow10(dstDecimals), b, 1, kept, BPS_DENOMINATOR, reference,
      MulDivFloor(reference, kept, BPS_DENOMINATOR));
  }

  /** The reference units it takes for the slippage to leave one. */
  function UnitsNeeded(slippageBps: nat): nat
    requires slippageBps < BPS_DENOMINATOR
  {
    (2 * BPS_DENOMINATOR - slippageBps - 1) / (BPS_DENOMINATOR - slippageBps)
  }

  lemma UnitsAreNeeded(reference: nat, slippageBps: nat)
    requires slippageBps < BPS_DENOMINATOR
    ensures MulDivFloor(reference, BPS_DENOMINATOR - slippageBps, BPS_DENOMINATOR) == 0
       <==> reference < UnitsNeeded(slippageBps)
    ensures slippageBps <= BPS_DENOMINATOR / 2 ==> UnitsNeeded(slippageBps) == if slippageBps == 0 then 1 else 2
  {
    var kept := BPS_DENOMINATOR - slippageBps;
    DivAtLeast(reference * kept, BPS_DENOMINATOR, 1);
    DivAtLeast(BPS_DENOMINATOR + kept - 1, kept, reference + 1);
    Distribute(kept, reference, 1);
    if 0 < slippageBps <= BPS_DENOMINATOR / 2 {
      DivUnique(BPS_DENOMINATOR + kept - 1, kept, 2);
    }
  }

  /** Below so many reference units nothing is left to sign. */
  lemma DerivedMinIsZeroExactly(
    amount: nat, srcDecimals: nat, dstDecimals: nat, priceIn: nat, priceOut: nat, slippageBps: nat)
    requires 0 < priceOut && slippageBps < BPS_DENOMINATOR
    ensures DerivedMin(amount, srcDecimals, dstDecimals, priceIn, priceOut, slippageBps) == 0
       <==> amount * priceIn * Pow10(dstDecimals) < priceOut * Pow10(srcDecimals) * UnitsNeeded(slippageBps)
  {
    hide Pow10, UnitsNeeded;
    var b := priceOut * Pow10(srcDecimals);
    ProductPositive(priceOut, Pow10(srcDecimals));
    UnitsAreNeeded(Reference(amount, srcDecimals, dstDecimals, priceIn, priceOut), slippageBps);
    UnitsAreNeeded(0, slippageBps);
    ProductPositive(b, UnitsNeeded(slippageBps));
    DivAtLeast(amount * priceIn * Pow10(dstDecimals), b, UnitsNeeded(slippageBps));
  }

  /**
   * What is signed, against the exact value at the prices a leg has, Chainlink first: never more than it and less than
   * two units below it. The fallback is signed exactly if a leg has no price, or one that rounds to zero, or the
   * reference before slippage has fewer units than it takes; up to a half of slippage those are two, one without any.
   */
  lemma SigningMinIsClose(
    amount: nat, srcDecimals: nat, dstDecimals: nat, slippageBps: nat,
    chainlinkIn: UsdPrice, chainlinkOut: UsdPrice, llamaIn: UsdPrice, llamaOut: UsdPrice)
    requires slippageBps <= BPS_DENOMINATOR
    ensures
      var r :=
          DeriveSigningMin(amount, srcDecimals, dstDecimals, slippageBps, chainlinkIn, chainlinkOut, llamaIn, llamaOut);
      var priceIn, priceOut := LivePrice(chainlinkIn, llamaIn), LivePrice(chainlinkOut, llamaOut);
      var priced := priceIn.Some? && 0 < priceIn.value && priceOut.Some? && 0 < priceOut.value;
      && (r.hasFeed <==>
            && priced && slippageBps < BPS_DENOMINATOR
            && priceOut.value * Pow10(srcDecimals) * UnitsNeeded(slippageBps)
               <= amount * priceIn.value * Pow10(dstDecimals))
      && (r.hasFeed ==>
            var numerator, denominator :=
              ExactNumerator(amount, dstDecimals, priceIn.value, slippageBps),
                ExactDenominator(srcDecimals, priceOut.value);
            r.minAmountOut * denominator <= numerator < (r.minAmountOut + 2) * denominator)
      && (!r.hasFeed ==> r.minAmountOut == FallbackMin(dstDecimals))
    ensures slippageBps <= BPS_DENOMINATOR / 2 ==> UnitsNeeded(slippageBps) == if slippageBps == 0 then 1 else 2
  {
    hide Pow10, UnitsNeeded, Reference, ExactNumerator, ExactDenominator;
    var priceIn, priceOut := LivePrice(chainlinkIn, llamaIn), LivePrice(chainlinkOut, llamaOut);
    if slippageBps < BPS_DENOMINATOR {
      UnitsAreNeeded(0, slippageBps);
    }
    if priceIn.Some? && priceOut.Some? && 0 < priceOut.value {
      if slippageBps < BPS_DENOMINATOR {
        DerivedMinIsZeroExactly(amount, srcDecimals, dstDecimals, priceIn.value, priceOut.value, slippageBps);
      }
      DerivedMinIsClose(amount, srcDecimals, dstDecimals, priceIn.value, priceOut.value, slippageBps);
    }
  }

  /** A wider slippage never signs more, nor does a smaller amount; and what is derived at the wider one still is. */
  lemma SigningMinMonotone(
    amount: nat, amount': nat, srcDecimals: nat, dstDecimals: nat, bps: nat, bps': nat,
    chainlinkIn: UsdPrice, chainlinkOut: UsdPrice, llamaIn: UsdPrice, llamaOut: UsdPrice)
    requires amount <= amount' && bps' <= bps <= BPS_DENOMINATOR
    ensures
      var r :=
          DeriveSigningMin(amount, srcDecimals, dstDecimals, bps, chainlinkIn, chainlinkOut, llamaIn, llamaOut);
      var r' :=
          DeriveSigningMin(amount', srcDecimals, dstDecimals, bps', chainlinkIn, chainlinkOut, llamaIn, llamaOut);
      r.hasFeed ==> r'.hasFeed && r.minAmountOut <= r'.minAmountOut
  {
    hide Pow10, Reference;
    var priceIn, priceOut := LivePrice(chainlinkIn, llamaIn), LivePrice(chainlinkOut, llamaOut);
    if priceIn.Some? && priceOut.Some? && 0 < priceOut.value {
      var x, x' := Reference(amount, srcDecimals, dstDecimals, priceIn.value, priceOut.value),
                   Reference(amount', srcDecimals, dstDecimals, priceIn.value, priceOut.value);
      ReferenceMonotone(amount, amount', srcDecimals, dstDecimals, priceIn.value, priceOut.value);
      QuotientMonotone(x, x', BPS_DENOMINATOR - bps, BPS_DENOMINATOR - bps', BPS_DENOMINATOR);
    }
  }

  lemma ReferenceMonotone(
    amount: nat, amount': nat, srcDecimals: nat, dstDecimals: nat, priceIn: nat, priceOut: nat)
    requires amount <= amount' && 0 < priceOut
    ensures Reference(amount, srcDecimals, dstDecimals, priceIn, priceOut)
         <= Reference(amount', srcDecimals, dstDecimals, priceIn, priceOut)
  {
    hide Pow10;
    ProductPositive(priceOut, Pow10(srcDecimals));
    ProductMonotone(amount, amount', priceIn, priceIn);
    QuotientMonotone(amount * priceIn, amount' * priceIn, Pow10(dstDecimals), Pow10(dstDecimals),
      priceOut * Pow10(srcDecimals));
  }

  /**
   * An order worth one and a half output units is not signed at one: half a percent of slippage leaves less than a
   * unit of its one whole reference unit, and the fallback is signed instead.
   */
  lemma OneUnitIsNotSigned()
    ensures
      var r := DeriveSigningMin(15_000, 4, 0, 50, Some(100), Some(100), None, None);
      var numerator, denominator := ExactNumerator(15_000, 0, 100, 50), ExactDenominator(4, 100);
      && denominator <= numerator && !r.hasFeed && r.minAmountOut == FallbackMin(0)
  {
    assert Pow10(4) == 10_000;
  }

  // ── Signing price against execution price ──

  /**
   * On equal prices the client's reference is never below the contract's fair value, and above it by less than one unit
   * plus `10^dstDecimals / priceOut`.
   */
  lemma ReferenceTracksFairValue(amount: nat, srcDecimals: nat, dstDecimals: nat, priceIn: nat, priceOut: nat)
    requires 0 < priceOut
    ensures
      var reference, fair := Reference(amount, srcDecimals, dstDecimals, priceIn, priceOut),
                             FairValue(amount, srcDecimals, dstDecimals, priceIn, priceOut);
      fair <= reference && (reference - fair - 1) * priceOut < Pow10(dstDecimals)
  {
    hide Pow10, MulDivFloor;
    var x, s, t, q := amount * priceIn, Pow10(srcDecimals), Pow10(dstDecimals), priceOut;
    var u := MulDivFloor(amount, priceIn, s);
    ProductPositive(q, s);
    MulDivBounds(amount, priceIn, s);
    MulDivBounds(u, t, q);
    MulDivBounds(x, t, q * s);
    TwoFloorsAgainstOne(x, s, t, q, u, FairValue(amount, srcDecimals, dstDecimals, priceIn, priceOut),
      Reference(amount, srcDecimals, dstDecimals, priceIn, priceOut));
  }

  lemma TwoFloorsAgainstOne(x: nat, s: nat, t: nat, q: nat, u: nat, two: nat, one: nat)
    requires 0 < s && 0 < t && 0 < q
    requires s * u <= x < s * u + s && q * two <= u * t < q * two + q
    requires (q * s) * one <= x * t < (q * s) * one + q * s
    ensures two <= one && (one - two - 1) * q < t
  {
    NotBelow(x, s, t, q, u, two, one);
    NotFarAbove(x, s, t, q, u, two, one);
  }

  lemma NotBelow(x: nat, s: nat, t: nat, q: nat, u: nat, two: nat, one: nat)
    requires 0 < s && 0 < t && 0 < q
    requires s * u <= x && q * two <= u * t && x * t < (q * s) * one + q * s
    ensures two <= one
  {
    Scale(s, q * two, u * t);
    Scale(t, s * u, x);
    Rearrange(s, q, two);
    Rearrange(s, u, t);
    Distribute(q * s, one, 1);
    ProductPositive(q, s);
    Scale(q * s, two, one + 1);
  }

  lemma NotFarAbove(x: nat, s: nat, t: nat, q: nat, u: nat, two: nat, one: nat)
    requires 0 < s && 0 < t && 0 < q
    requires x < s * u + s && u * t < q * two + q && (q * s) * one <= x * t
    ensures (one - two - 1) * q < t
  {
    Scale(t, x, s * u + s);
    Distribute(t, s * u, s);
    Rearrange(s, u, t);
    Scale(s, u * t + 1, q * two + q);
    Distribute(s, u * t, 1);
    Distribute(s, q * two + q, t);
    Rearrange(s, q, one);
    Scale(s, q * one, q * two + q + t);
    Distribute(q, one, two + 1);
    Distribute(q, two, 1);
  }

  lemma CancelFactor(x: nat, y: nat, k: nat)
    requires 0 < y && 0 < k
    ensures 0 < k * y && (k * x) / (k * y) == x / y
  {
    ProductPositive(k, y);
    DivBounds(x, y);
    Scale(k, y * (x / y), x);
    Scale(k, x + 1, y * (x / y) + y);
    Distribute(k, x, 1);
    Distribute(k, y * (x / y), y);
    Rearrange(k, y, x / y);
    DivUnique(k * x, k * y, x / y);
  }

  /** Scaling both prices alike changes nothing. */
  lemma ReferenceScales(amount: nat, srcDecimals: nat, dstDecimals: nat, priceIn: nat, priceOut: nat, k: nat)
    requires 0 < priceOut && 0 < k
    ensures 0 < priceOut * k
    ensures Reference(amount, srcDecimals, dstDecimals, priceIn * k, priceOut * k)
         == Reference(amount, srcDecimals, dstDecimals, priceIn, priceOut)
  {
    hide Pow10;
    var s, t := Pow10(srcDecimals), Pow10(dstDecimals);
    var x := amount * priceIn;
    ProductPositive(priceOut, k);
    ProductPositive(priceOut, s);
    Rearrange(amount, priceIn, k);
    Rearrange(x, k, t);
    Rearrange(k, x, t);
    Rearrange(k, priceOut, s);
    Rearrange(priceOut, k, s);
    assert amount * (priceIn * k) == k * x;
    assert (k * x) * t == k * (x * t);
    assert (priceOut * k) * s == k * (priceOut * s);
    CancelFactor(x * t, priceOut * s, k);
  }

  /**
   * The client's reference and the contract's fair value where the client's prices are the feeds' up to one common
   * scale, whatever decimals each feed has: never below it, and above it by less than one unit plus one unit of the
   * output price's last digit.
   */
  lemma ReferenceTracksContract(
    sequencerFeed: nat, registry: map<nat, TokenUsdFeed>, feeds: FeedTable, now: nat, tokenIn: nat, tokenOut: nat,
    amount: nat, priceIn: nat, priceOut: nat, scale: nat)
    requires 0 < amount && Vouched(sequencerFeed, registry, feeds, now, tokenIn, tokenOut)
    requires FairValueFits(registry, feeds, now, tokenIn, tokenOut, amount)
    requires DollarPrice(registry, feeds, now, tokenIn) == priceIn * scale
        && DollarPrice(registry, feeds, now, tokenOut) == priceOut * scale
    ensures 0 < priceOut
    ensures
      var fair := FairValueOut(sequencerFeed, registry, feeds, now, tokenIn, tokenOut, amount);
      var src, dst := registry[tokenIn].tokenDecimals, registry[tokenOut].tokenDecimals;
      var reference := Reference(amount, src, dst, priceIn, priceOut);
      && fair.Ok? && fair.value.Some? && fair.value.value <= reference
      && (reference - fair.value.value - 1) * (priceOut * scale) < Pow10(dst)
  {
    hide Pow10, FairValueOut, Reference, FairValue, MulDivFloor, SequencerVouches, Usable, Readable;
    FairValueExactly(sequencerFeed, registry, feeds, now, tokenIn, tokenOut, amount);
    var src, dst := registry[tokenIn].tokenDecimals, registry[tokenOut].tokenDecimals;
    BothPositive(priceOut, scale);
    ReferenceTracksFairValue(amount, src, dst, priceIn * scale, priceOut * scale);
    ReferenceScales(amount, src, dst, priceIn, priceOut, scale);
  }

  lemma BothPositive(a: nat, b: nat)
    requires 0 < a * b
    ensures 0 < a && 0 < b
  {
  }

  /** The share of a chunk that reaches the router. */
  function Net(chunk: nat): nat
  {
    chunk - chunk * FEE_BPS / BPS_DENOMINATOR
  }

  /**
   * With a slippage of at least the fee, a fill at the very price the order was signed at clears the signed minimum,
   * whatever the chunk and the rounding: the scaled minimum is at most the reference value of the net chunk.
   */
  lemma SignedFloorIsReachable(
    total: nat, chunk: nat, srcDecimals: nat, dstDecimals: nat, priceIn: nat, priceOut: nat, slippageBps: nat)
    requires 0 < total && 0 < priceOut && FEE_BPS <= slippageBps <= BPS_DENOMINATOR
    ensures ScaledMin(DerivedMin(total, srcDecimals, dstDecimals, priceIn, priceOut, slippageBps), chunk, total)
         <= Reference(Net(chunk), srcDecimals, dstDecimals, priceIn, priceOut)
  {
    hide Pow10, MulDivFloor, ScaledMin, Net;
    ProductPositive(priceOut, Pow10(srcDecimals));
    var a, b, kept := priceIn * Pow10(dstDecimals), priceOut * Pow10(srcDecimals), BPS_DENOMINATOR - slippageBps;
    var reference := Reference(total, srcDecimals, dstDecimals, priceIn, priceOut);
    var min := DerivedMin(total, srcDecimals, dstDecimals, priceIn, priceOut, slippageBps);
    Rearrange(total, priceIn, Pow10(dstDecimals));
    Rearrange(Net(chunk), priceIn, Pow10(dstDecimals));
    MulDivBounds(total * priceIn, Pow10(dstDecimals), b);
    MulDivBounds(reference, kept, BPS_DENOMINATOR);
    MulDivBounds(Net(chunk) * priceIn, Pow10(dstDecimals), b);
    ScaledMinBound(min, chunk, total);
    KeptWithinNet(chunk, kept);
    ReachableAtRate(total, chunk, a, b, kept, reference, min, ScaledMin(min, chunk, total), Net(chunk),
      Reference(Net(chunk), srcDecimals, dstDecimals, priceIn, priceOut));
  }

  /** The same without division: each number is below its fraction of the one before. */
  lemma ReachableAtRate(
      total: nat, chunk: nat, a: nat, b: nat, kept: nat, reference: nat, min: nat, floor: nat, net: nat, fair: nat)
    requires 0 < total && 0 < b
    requires b * reference <= total * a && BPS_DENOMINATOR * min <= reference * kept
    requires total * floor <= min * chunk && chunk * kept <= BPS_DENOMINATOR * net
    requires net * a < b * fair + b
    ensures floor <= fair
  {
    var e := BPS_DENOMINATOR;
    Compose(chunk, total, kept, e, floor, min, reference);
    Compose(chunk * kept, total * e, a, b, floor, reference, total);
    FloorBelowNet(total, e, b, a, chunk * kept, net, floor);
    Scale(b, floor, fair + 1);
    Distribute(b, fair, 1);
  }

  lemma FloorBelowNet(total: nat, e: nat, b: nat, a: nat, share: nat, net: nat, floor: nat)
    requires 0 < total && 0 < e
    requires ((total * e) * b) * floor <= (share * a) * total
    requires share <= e * net
    ensures b * floor <= net * a
  {
    Rearrange(total * e, b, floor);
    Rearrange(total, e, b * floor);
    Scale(total, e * (b * floor), share * a);
    Scale(a, share, e * net);
    Rearrange(a, e, net);
    Scale(e, b * floor, net * a);
  }

  lemma ScaledMinBound(min: nat, chunk: nat, total: nat)
    requires 0 < total
    ensures total * ScaledMin(min, chunk, total) <= min * chunk
  {
    DivBounds(min * chunk, total);
  }

  lemma KeptWithinNet(chunk: nat, kept: nat)
    requires kept <= BPS_DENOMINATOR - FEE_BPS
    ensures chunk * kept <= BPS_DENOMINATOR * Net(chunk)
  {
    Scale(chunk, kept, BPS_DENOMINATOR - FEE_BPS);
  }

  // ── The fallback minimum, once divided ──

  /** The exact condition for every fill to have a floor the contract accepts. */
  lemma EveryFillHasAFloor(minOut: nat, total: nat, n: nat)
    requires 0 < total && 0 < n
    ensures (forall k :: 0 <= k < n ==>
        0 <= ChunkSize(total, n, k) && 0 < ScaledMin(minOut, ChunkSize(total, n, k), total))
       <==> total <= minOut * PerChunk(total, n)
  {
    ChunkIsFloorOrCeiling(total, n, 0);
    ChunkInRange(total, n, 0);
    DivAtLeast(minOut * PerChunk(total, n), total, 1);
    forall k | 0 <= k < n
      ensures 0 <= ChunkSize(total, n, k)
      ensures total <= minOut * PerChunk(total, n) ==> 0 < ScaledMin(minOut, ChunkSize(total, n, k), total)
    {
      ChunkIsFloorOrCeiling(total, n, k);
      var chunk: nat := ChunkSize(total, n, k);
      Scale(minOut, PerChunk(total, n), chunk);
      DivAtLeast(minOut * chunk, total, 1);
    }
    if forall k :: 0 <= k < n ==> 0 <= ChunkSize(total, n, k) && 0 < ScaledMin(minOut, ChunkSize(total, n, k), total) {
      assert 0 < ScaledMin(minOut, ChunkSize(total, n, 0), total);
    }
  }

  /** Splitting evenly, that is one output unit per fill. */
  lemma EvenFillsHaveAFloor(minOut: nat, total: nat, n: nat)
    requires 0 < total && 0 < n && total % n == 0
    ensures total <= minOut * PerChunk(total, n) <==> n <= minOut
  {
    var share := total / n;
    Scale(share, n, minOut);
    Scale(share, minOut, n);
    assert share * n == total;
  }

  /**
   * The fallback does not always survive the division: with four or fewer output decimals it never does for two fills
   * or more.
   */
  lemma FallbackDiesOnCoarseTokens(total: nat, n: nat, dstDecimals: nat)
    requires 0 < total && 2 <= n && dstDecimals <= 4
    ensures !(total <= FallbackMin(dstDecimals) * PerChunk(total, n))
  {
    assert FallbackMin(dstDecimals) == 1;
    Scale(total / n, 2, n);
    DivBounds(total, n);
  }

  /**
   * A hundred buys into a six-decimal token: one input unit more than an even split and the first fill has no floor.
   */
  lemma FallbackCanDieOnUsdc()
    ensures FallbackMin(6) == 100
    ensures ChunkSize(1_000_001, 100, 0) == MIN_ORDER_AMOUNT
    ensures ScaledMin(FallbackMin(6), MIN_ORDER_AMOUNT, 1_000_001) == 0
  {
    assert Pow10(1) == 10 && Pow10(2) == 100;
  }
}
