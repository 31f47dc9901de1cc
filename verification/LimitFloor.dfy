/** The minimum output a limit or take-profit order is signed with: three floored steps in fixed point. */
module LimitFloor {
  import opened FloorDivision
  import opened ExecutorTypes
  import opened Oracle
  import opened Execution
  import opened Machine
  import opened Accounting

  const PRICE_ONE: nat := 1_000_000_000_000_000_000

  /**
   * `amount` input units at `price` (output per input, times 1e18), rescaled by the difference of the tokens' decimals.
   */
  function ExpectedOut(amount: nat, price: nat, decDiff: int): nat {
    var raw := amount * price / PRICE_ONE;
    if decDiff > 0 then raw * Pow10(decDiff)
    else if decDiff < 0 then raw / Pow10(-decDiff)
    else raw
  }

  /** What the new executor is given. */
  function SignedMin(amount: nat, price: nat, decDiff: int, slippageBps: nat): nat
    requires slippageBps <= BPS_DENOMINATOR
  {
    ExpectedOut(amount, price, decDiff) * (BPS_DENOMINATOR - slippageBps) / BPS_DENOMINATOR
  }

  /** What the previous one was given. */
  function LegacySignedMin(amount: nat, price: nat, decDiff: int): nat {
    ExpectedOut(amount, price, decDiff) * 98 / 100
  }

  /** The exact minimum is the rational number `ExactNumerator / ExactDenominator`. */
  function ExactNumerator(amount: nat, price: nat, decDiff: int, slippageBps: nat): nat
    requires slippageBps <= BPS_DENOMINATOR
  {
    amount * price * Pow10(if decDiff > 0 then decDiff else 0) * (BPS_DENOMINATOR - slippageBps)
  }

  function ExactDenominator(decDiff: int): (q: nat)
    ensures 0 < q
  {
    var q := PRICE_ONE * Pow10(if decDiff < 0 then -decDiff else 0);
    ProductPositive(PRICE_ONE, Pow10(if decDiff < 0 then -decDiff else 0));
    ProductPositive(q, BPS_DENOMINATOR);
    q * BPS_DENOMINATOR
  }

  /**
   * The signed minimum never asks for more than the exact value, and falls short of it by less than two output units
   * when the output has no more decimals than the input, and by less than `10^decDiff + 1` otherwise.
   */
  lemma SignedMinIsClose(amount: nat, price: nat, decDiff: int, slippageBps: nat)
    requires slippageBps <= BPS_DENOMINATOR
    ensures
      var signed, numerator, denominator :=
        SignedMin(amount, price, decDiff, slippageBps), ExactNumerator(amount, price, decDiff, slippageBps),
            ExactDenominator(decDiff);
      && signed * denominator <= numerator
      && numerator < (signed + (if decDiff > 0 then Pow10(decDiff) else 1) + 1) * denominator
  {
    hide Pow10;
    var x, q := amount * price, BPS_DENOMINATOR - slippageBps;
    var out, signed := ExpectedOut(amount, price, decDiff), SignedMin(amount, price, decDiff, slippageBps);
    PowZero();
    DivBounds(out * q, BPS_DENOMINATOR);
    if decDiff > 0 {
      DivBounds(x, PRICE_ONE);
      ScaledQuotient(x, PRICE_ONE, Pow10(decDiff), q, BPS_DENOMINATOR, x / PRICE_ONE, signed);
    } else {
      var k := Pow10(-decDiff);
      NestedQuotient(x, PRICE_ONE, k);
      DivBounds(x, PRICE_ONE * k);
      ScaledQuotient(x, PRICE_ONE * k, 1, q, BPS_DENOMINATOR, out, signed);
    }
  }

  lemma PowZero()
    ensures Pow10(0) == 1
  {
  }

  /** A larger amount or price never lowers the signed minimum; a wider slippage never raises it. */
  lemma SignedMinMonotone(amount: nat, amount': nat, price: nat, price': nat, decDiff: int, bps: nat, bps': nat)
    requires amount <= amount' && price <= price' && bps' <= bps <= BPS_DENOMINATOR
    ensures SignedMin(amount, price, decDiff, bps) <= SignedMin(amount', price', decDiff, bps')
  {
    ExpectedOutMonotone(amount, amount', price, price', decDiff);
    QuotientMonotone(ExpectedOut(amount, price, decDiff), ExpectedOut(amount', price', decDiff), BPS_DENOMINATOR - bps,
        BPS_DENOMINATOR - bps', BPS_DENOMINATOR);
  }

  lemma ExpectedOutMonotone(amount: nat, amount': nat, price: nat, price': nat, decDiff: int)
    requires amount <= amount' && price <= price'
    ensures ExpectedOut(amount, price, decDiff) <= ExpectedOut(amount', price', decDiff)
  {
    hide Pow10;
    ProductMonotone(amount, amount', price, price');
    DivMonotone(amount * price, amount' * price', PRICE_ONE);
    var raw, raw' := amount * price / PRICE_ONE, amount' * price' / PRICE_ONE;
    if decDiff > 0 {
      Scale(Pow10(decDiff), raw, raw');
    } else if decDiff < 0 {
      DivMonotone(raw, raw', Pow10(-decDiff));
    }
  }

  /**
   * The preview on screen is the expected output itself: the signed minimum is at most that, and equal only without
   * slippage.
   */
  lemma SignedMinBelowPreview(amount: nat, price: nat, decDiff: int, slippageBps: nat)
    requires slippageBps <= BPS_DENOMINATOR
    ensures SignedMin(amount, price, decDiff, slippageBps) <= ExpectedOut(amount, price, decDiff)
    ensures SignedMin(amount, price, decDiff, slippageBps) == ExpectedOut(amount, price, decDiff)
       <==> slippageBps == 0 || ExpectedOut(amount, price, decDiff) == 0
  {
    var out := ExpectedOut(amount, price, decDiff);
    Scale(out, BPS_DENOMINATOR - slippageBps, BPS_DENOMINATOR);
    DivMonotone(out * (BPS_DENOMINATOR - slippageBps), out * BPS_DENOMINATOR, BPS_DENOMINATOR);
    DivUnique(out * BPS_DENOMINATOR, BPS_DENOMINATOR, out);
    DivAtLeast(out * (BPS_DENOMINATOR - slippageBps), BPS_DENOMINATOR, out);
    assert out * (BPS_DENOMINATOR - slippageBps) == out * BPS_DENOMINATOR - out * slippageBps;
    if 0 < out && 0 < slippageBps {
      ProductPositive(out, slippageBps);
    }
  }

  /** The previous flat two percent is the new path at 200 basis points. */
  lemma LegacyIsTwoHundredBps(amount: nat, price: nat, decDiff: int)
    ensures LegacySignedMin(amount, price, decDiff) == SignedMin(amount, price, decDiff, 200)
  {
    var out := ExpectedOut(amount, price, decDiff);
    DivBounds(out * 98, 100);
    DivUnique(out * 9800, BPS_DENOMINATOR, out * 98 / 100);
  }

  /**
   * Truncating before scaling up loses small orders entirely: with more output than input decimals the signed minimum
   * is zero, which the contract refuses, exactly when amount times price is below one input unit's worth.
   */
  lemma ScaledUpMinIsZeroExactly(amount: nat, price: nat, decDiff: int, slippageBps: nat)
    requires 0 < decDiff && slippageBps <= MAX_ORDER_SLIPPAGE_BPS
    ensures SignedMin(amount, price, decDiff, slippageBps) == 0 <==> amount * price < PRICE_ONE
  {
    var raw, k := amount * price / PRICE_ONE, Pow10(decDiff);
    DivAtLeast(amount * price, PRICE_ONE, 1);
    if 1 <= raw {
      assert 10 <= k;
      Scale(raw, 10, k);
      Scale(BPS_DENOMINATOR - slippageBps, 10, raw * k);
      DivAtLeast(raw * k * (BPS_DENOMINATOR - slippageBps), BPS_DENOMINATOR, 1);
    }
  }

  /**
   * The smallest order the contract takes, worth half a unit in the input's decimals, into a token with twelve more
   * decimals: at three percent slippage it should be signed at 485 billion output units and is signed at zero.
   */
  lemma SmallOrderIsSignedAtZero()
    ensures SignedMin(MIN_ORDER_AMOUNT, PRICE_ONE / 20_000, 12, 300) == 0
    ensures ExactNumerator(MIN_ORDER_AMOUNT, PRICE_ONE / 20_000, 12, 300) / ExactDenominator(12) == 485_000_000_000
  {
    PowersOfTen();
  }

  lemma PowersOfTen()
    ensures Pow10(0) == 1 && Pow10(12) == 1_000_000_000_000
  {
    assert Pow10(4) == 10_000 && Pow10(8) == 100_000_000;
  }

  /** Such an order is refused on every attempt: in no run at all does it fill. */
  lemma {:induction false} UnderpricedOrderNeverFills(
    d: Deployment, s: State, txs: seq<Tx>, order: Order, price: nat, decDiff: int, slippageBps: nat)
    requires 0 < decDiff && slippageBps <= MAX_ORDER_SLIPPAGE_BPS && order.amountIn * price < PRICE_ONE
    requires order.minAmountOut == SignedMin(order.amountIn, price, decDiff, slippageBps)
    ensures FillsOf(Receipts(d, s, txs), order) == []
  {
    hide Apply, SignedMin;
    ScaledUpMinIsZeroExactly(order.amountIn, price, decDiff, slippageBps);
    if txs != [] {
      var earlier, tx := txs[..|txs| - 1], txs[|txs| - 1];
      UnderpricedOrderNeverFills(d, s, earlier, order, price, decDiff, slippageBps);
      FillsStep(d, s, txs, order);
      FilledOrderHasMinimum(d, Run(d, s, earlier), tx);
    }
  }

  lemma FilledOrderHasMinimum(d: Deployment, s: State, tx: Tx)
    ensures Filled(d, s, tx).Some? ==> Filled(d, s, tx).value.order.minAmountOut != 0
  {
    hide NextChunk, UseNonce, CheckFunds, OutputFloor, Settle;
  }
}
