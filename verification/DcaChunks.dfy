/** How a DCA order's total is split into fills, and what the signed minimum becomes on each fill. */
module DcaChunks {
  import opened FloorDivision

  /** Input the order should have spent after `k` of `n` fills. */
  function Cumulative(total: nat, n: nat, k: nat): nat
    requires 0 < n
  {
    total * k / n
  }

  /** The amount fill `k` (counted from 0) takes; the last fill takes whatever is left. */
  function ChunkSize(total: nat, n: nat, k: nat): int
    requires k < n
  {
    var previouslyExecuted := total * k / n;
    if k == n - 1 then total - previouslyExecuted
    else total * (k + 1) / n - previouslyExecuted
  }

  /** The client's per-buy amount. */
  function PerChunk(total: nat, n: nat): nat {
    if n == 0 then 0 else total / n
  }

  function Sum(xs: seq<int>): int {
    if xs == [] then 0 else Sum(xs[..|xs| - 1]) + xs[|xs| - 1]
  }

  lemma SumSnoc(xs: seq<int>, x: int)
    ensures Sum(xs + [x]) == Sum(xs) + x
  {
    assert (xs + [x])[..|xs|] == xs;
  }

  /** The first `k` fills of an order, in the order they happen. */
  function FirstChunks(total: nat, n: nat, k: nat): seq<int>
    requires k <= n
  {
    if k == 0 then [] else FirstChunks(total, n, k - 1) + [ChunkSize(total, n, k - 1)]
  }

  lemma CumulativeEnds(total: nat, n: nat)
    requires 0 < n
    ensures Cumulative(total, n, 0) == 0 && Cumulative(total, n, n) == total
  {
    DivUnique(total * n, n, total);
  }

  /** The special case for the last fill changes nothing: it is the same difference of floors. */
  lemma ChunkIsDifference(total: nat, n: nat, k: nat)
    requires k < n
    ensures ChunkSize(total, n, k) == Cumulative(total, n, k + 1) - Cumulative(total, n, k)
  {
    CumulativeEnds(total, n);
  }

  lemma CumulativeGrows(total: nat, n: nat, k: nat)
    requires k < n
    ensures Cumulative(total, n, k) <= Cumulative(total, n, k + 1) <= total
  {
    CumulativeEnds(total, n);
    Scale(total, k, k + 1);
    Scale(total, k + 1, n);
    DivMonotone(total * k, total * (k + 1), n);
    DivMonotone(total * (k + 1), total * n, n);
  }

  lemma ChunkInRange(total: nat, n: nat, k: nat)
    requires k < n
    ensures 0 <= ChunkSize(total, n, k) <= total
  {
    ChunkIsDifference(total, n, k);
    CumulativeGrows(total, n, k);
  }

  /**
   * Fills telescope: after `k` fills exactly the floor of `total * k / n` has been taken, and `n` fills take it all.
   */
  lemma {:induction false} ChunksTelescope(total: nat, n: nat, k: nat)
    requires 0 < n && k <= n
    ensures |FirstChunks(total, n, k)| == k
    ensures Sum(FirstChunks(total, n, k)) == Cumulative(total, n, k)
    ensures k == n ==> Sum(FirstChunks(total, n, k)) == total
  {
    CumulativeEnds(total, n);
    if k > 0 {
      ChunksTelescope(total, n, k - 1);
      ChunkIsDifference(total, n, k - 1);
      SumSnoc(FirstChunks(total, n, k - 1), ChunkSize(total, n, k - 1));
    }
  }

  /** Every fill is the even share rounded down or up, and the first is the share rounded down. */
  lemma ChunkIsFloorOrCeiling(total: nat, n: nat, k: nat)
    requires k < n
    ensures ChunkSize(total, n, k) == total / n
         || (total % n != 0 && ChunkSize(total, n, k) == total / n + 1)
    ensures ChunkSize(total, n, 0) == total / n
  {
    ChunkIsDifference(total, n, k);
    ChunkIsDifference(total, n, 0);
    CumulativeEnds(total, n);
    ShareOfStep(total, n, total * k);
    assert total * (k + 1) == total * k + total;
    assert total * 1 == total;
  }

  /** Adding `step` to a dividend adds its floored or ceiled quotient. */
  lemma ShareOfStep(step: nat, n: nat, a: nat)
    requires 0 < n
    ensures (a + step) / n - a / n == step / n
         || (step % n != 0 && (a + step) / n - a / n == step / n + 1)
  {
    var qa, qs, ra, rs := a / n, step / n, a % n, step % n;
    assert n * (qa + qs) == n * qa + n * qs;
    if ra + rs < n {
      DivUnique(a + step, n, qa + qs);
    } else {
      assert n * (qa + qs + 1) == n * (qa + qs) + n;
      DivUnique(a + step, n, qa + qs + 1);
    }
  }

  /**
   * The client checks one number, the contract checks each fill against the minimum order size:
   * the two agree because the smallest fill is the first one.
   */
  lemma EveryChunkClearsMinimum(total: nat, n: nat, minimum: nat)
    requires 0 < n
    ensures (forall k :: 0 <= k < n ==> ChunkSize(total, n, k) >= minimum) <==> PerChunk(total, n) >= minimum
  {
    ChunkIsFloorOrCeiling(total, n, 0);
    forall k | 0 <= k < n
      ensures ChunkSize(total, n, k) >= PerChunk(total, n)
    {
      ChunkIsFloorOrCeiling(total, n, k);
    }
    if forall k :: 0 <= k < n ==> ChunkSize(total, n, k) >= minimum {
      assert ChunkSize(total, n, 0) >= minimum;
    }
  }

  // ── The signed minimum, scaled to one fill ──

  /** The part of the signed minimum that one fill of `chunk` must clear. */
  function ScaledMin(minOut: nat, chunk: nat, total: nat): nat
    requires 0 < total
  {
    minOut * chunk / total
  }

  predicate AllNatural(chunks: seq<int>) {
    forall i :: 0 <= i < |chunks| ==> 0 <= chunks[i]
  }

  /** The scaled minimums of a sequence of fills added up. */
  function SumOfFloors(minOut: nat, total: nat, chunks: seq<int>): int
    requires 0 < total && AllNatural(chunks)
  {
    if chunks == [] then 0 else
      SumOfFloors(minOut, total, chunks[..|chunks| - 1]) + ScaledMin(minOut, chunks[|chunks| - 1], total)
  }

  /** For any fills at all, the floors are worth their share of the minimum, less than one unit per fill short. */
  lemma {:induction false} FloorsTrackTheMinimum(minOut: nat, total: nat, chunks: seq<int>)
    requires 0 < total && AllNatural(chunks)
    ensures total * SumOfFloors(minOut, total, chunks) <= minOut * Sum(chunks)
                                                       <= total * (SumOfFloors(minOut, total, chunks) + |chunks|)
    ensures chunks != [] ==> minOut * Sum(chunks) < total * (SumOfFloors(minOut, total, chunks) + |chunks|)
  {
    if chunks != [] {
      var last := |chunks| - 1;
      FloorsTrackTheMinimum(minOut, total, chunks[..last]);
      FloorStep(minOut, total, Sum(chunks[..last]), chunks[last], SumOfFloors(minOut, total, chunks[..last]), |chunks|);
    }
  }

  lemma FloorStep(minOut: nat, total: nat, before: int, chunk: nat, sum: int, k: nat)
    requires 0 < total && 0 < k
    requires total * sum <= minOut * before <= total * (sum + (k - 1))
    ensures total * (sum + ScaledMin(minOut, chunk, total)) <= minOut * (before + chunk)
                                                            < total * (sum + ScaledMin(minOut, chunk, total) + k)
  {
    var product := minOut * chunk;
    var floor := product / total;
    DivBounds(product, total);
    assert minOut * (before + chunk) == minOut * before + product;
    assert total * (sum + floor) == total * sum + total * floor;
    assert total * (sum + floor + k) == total * (sum + (k - 1)) + total * floor + total;
  }

  /**
   * Fills that add up to the order's total have floors adding up to the signed minimum, short by less than one unit
   * each.
   */
  lemma CompleteRunFloor(minOut: nat, total: nat, chunks: seq<int>)
    requires 0 < total && AllNatural(chunks) && Sum(chunks) == total
    ensures minOut - |chunks| < SumOfFloors(minOut, total, chunks) <= minOut
  {
    FloorsTrackTheMinimum(minOut, total, chunks);
    var sum := SumOfFloors(minOut, total, chunks);
    assert minOut * total == total * minOut;
    Scale(total, minOut, sum + |chunks|);
    Scale(total, sum, minOut);
  }

  /**
   * Signing a minimum that was already divided by the number of fills loses the rest of it: a complete run then
   * guarantees at most one fill's share, so the division has to happen on exactly one side.
   */
  lemma DividingTwiceLosesTheFloor(minOut: nat, total: nat, chunks: seq<int>)
    requires 0 < total && AllNatural(chunks) && Sum(chunks) == total
    ensures chunks != []
    ensures SumOfFloors(minOut / |chunks|, total, chunks) <= minOut / |chunks|
    ensures SumOfFloors(minOut, total, chunks) - SumOfFloors(minOut / |chunks|, total, chunks)
            > minOut - |chunks| - minOut / |chunks|
  {
    CompleteRunFloor(minOut / |chunks|, total, chunks);
    CompleteRunFloor(minOut, total, chunks);
  }

  function CeilDiv(a: nat, b: nat): nat
    requires 0 < b
  {
    if a % b == 0 then a / b else a / b + 1
  }

  /** The "enforced per buy" figure on screen overstates a fill's real floor by at most `CeilDiv(minOut, total)`. */
  lemma DisplayedFloorIsClose(minOut: nat, total: nat, n: nat, k: nat)
    requires 0 < total && k < n
    ensures 0 <= ChunkSize(total, n, k)
    ensures PerChunk(minOut, n) <= ScaledMin(minOut, ChunkSize(total, n, k), total) + CeilDiv(minOut, total)
  {
    ChunkIsFloorOrCeiling(total, n, k);
    ChunkInRange(total, n, k);
    var chunk := ChunkSize(total, n, k);
    Scale(n, total / n, chunk);
    OneFloorIsClose(minOut, total, n, chunk);
  }

  /** Any fill less than one unit below the even share has a floor within `CeilDiv(minOut, total)` of the even share. */
  lemma OneFloorIsClose(minOut: nat, total: nat, n: nat, chunk: nat)
    requires 0 < total && 0 < n && total - n < n * chunk
    ensures minOut / n <= ScaledMin(minOut, chunk, total) + CeilDiv(minOut, total)
  {
    var shown, slack := minOut / n, CeilDiv(minOut, total);
    assert minOut <= total * slack by {
      assert total * (minOut / total + 1) == total * (minOut / total) + total;
    }
    Spread(minOut, total, n, chunk, shown, slack);
    DivAtLeast(minOut * chunk, total, shown - slack);
  }

  lemma Spread(minOut: nat, total: nat, n: nat, chunk: nat, shown: nat, slack: nat)
    requires 0 < n && total - n < n * chunk
    requires n * shown <= minOut <= total * slack
    ensures total * (shown - slack) <= minOut * chunk
  {
    var a := total * (shown - slack);
    calc {
      n * a;
      n * (total * shown - total * slack);
      n * (total * shown) - n * (total * slack);
      total * (n * shown) - n * (total * slack);
    <= { Scale(total, n * shown, minOut); Scale(n, minOut, total * slack); }
      total * minOut - n * minOut;
      minOut * (total - n);
    <= { Scale(minOut, total - n, n * chunk); }
      minOut * (n * chunk);
      n * (minOut * chunk);
    }
    Scale(n, a, minOut * chunk);
  }

  /** When the total splits evenly the displayed figure is exactly what every fill must clear. */
  lemma DisplayedFloorIsExactWhenEven(minOut: nat, total: nat, n: nat, k: nat)
    requires 0 < total && k < n && total % n == 0
    ensures 0 <= ChunkSize(total, n, k)
    ensures ScaledMin(minOut, ChunkSize(total, n, k), total) == PerChunk(minOut, n)
  {
    ChunkIsFloorOrCeiling(total, n, k);
    EvenShare(minOut, total, n, total / n);
  }

  lemma EvenShare(minOut: nat, total: nat, n: nat, share: nat)
    requires 0 < total && 0 < n && total == n * share
    ensures ScaledMin(minOut, share, total) == minOut / n
  {
    var d := minOut / n;
    DivBounds(minOut, n);
    assert total * d == share * (n * d) && total * d + total == share * (n * d + n);
    Scale(share, n * d, minOut);
    Scale(share, minOut, n * d + n);
    DivUnique(minOut * share, total, d);
  }
}
