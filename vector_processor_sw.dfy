/** Software reference implementation of the 4-lane vector processor:
    saturating lane-wise addition and subtraction over signed 8-bit lanes,
    an unsaturated dot product, and the benchmark loop that drives them.

    Vectors are sequences of unbounded integers; the ALU reads lanes 0..3
    only, so it asks for at least four. Elapsed wall-clock time is a
    parameter of the benchmark, not a clock reading. */
module VectorProcessorSw {

  /** Bounds of a signed 8-bit lane. */
  const MinVal: int := -128
  const MaxVal: int := 127

  /** Number of lanes the processor works on. */
  const Lanes: nat := 4

  predicate IsLane(x: int) { MinVal <= x <= MaxVal }

  /** A vector of int8 lanes, as the processor is fed. */
  predicate IsLaneVector(v: seq<int>) {
    |v| == Lanes && forall i :: 0 <= i < |v| ==> IsLane(v[i])
  }

  // ---------------------------------------------------------------------------
  // Saturation
  // ---------------------------------------------------------------------------

  /** Clamps any integer into the int8 range. */
  function Saturate(v: int): (r: int)
    ensures IsLane(r)
    ensures IsLane(v) <==> r == v
    ensures v > MaxVal ==> r == MaxVal
    ensures v < MinVal ==> r == MinVal
  {
    if v > MaxVal then MaxVal
    else if v < MinVal then MinVal
    else v
  }

  /** Saturating twice is saturating once. */
  lemma SaturateIdempotent(v: int)
    ensures Saturate(Saturate(v)) == Saturate(v)
  {
  }

  /** The saturated value is the in-range value nearest to the input. */
  lemma SaturateIsNearestLane(v: int, x: int)
    requires IsLane(x)
    ensures Abs(Saturate(v) - v) <= Abs(x - v)
  {
  }

  /** Saturation preserves order. */
  lemma SaturateMonotonic(v: int, w: int)
    requires v <= w
    ensures Saturate(v) <= Saturate(w)
  {
  }

  function Abs(x: int): int { if x < 0 then -x else x }

  // ---------------------------------------------------------------------------
  // Specification of the vector operations
  // ---------------------------------------------------------------------------

  /** Lane i of the saturating sum is Saturate(a[i] + b[i]). */
  function SaturatingAdd(a: seq<int>, b: seq<int>): seq<int>
    requires |a| >= Lanes && |b| >= Lanes
  {
    seq(Lanes, i requires 0 <= i < Lanes => Saturate(a[i] + b[i]))
  }

  /** Lane i of the saturating difference is Saturate(a[i] - b[i]). */
  function SaturatingSub(a: seq<int>, b: seq<int>): seq<int>
    requires |a| >= Lanes && |b| >= Lanes
  {
    seq(Lanes, i requires 0 <= i < Lanes => Saturate(a[i] - b[i]))
  }

  /** Sum of the products of the first n lanes; nothing is clamped. */
  function DotPrefix(a: seq<int>, b: seq<int>, n: nat): int
    requires n <= |a| && n <= |b|
  {
    if n == 0 then 0 else DotPrefix(a, b, n - 1) + a[n - 1] * b[n - 1]
  }

  function Dot(a: seq<int>, b: seq<int>): int
    requires |a| >= Lanes && |b| >= Lanes
  {
    DotPrefix(a, b, Lanes)
  }

  // ---------------------------------------------------------------------------
  // The vector operations, as the program computes them
  // ---------------------------------------------------------------------------

  /** soma_vetorial: a zeroed 4-lane result is filled lane by lane with the
      saturated exact sum; the inputs are values and stay as they were. */
  method VectorAdd(a: seq<int>, b: seq<int>) returns (r: seq<int>)
    requires |a| >= Lanes && |b| >= Lanes
    ensures r == SaturatingAdd(a, b)
    ensures IsLaneVector(r)
  {
    var result := new int[Lanes](_ => 0);
    for i := 0 to Lanes
      invariant forall k :: 0 <= k < i ==> result[k] == Saturate(a[k] + b[k])
    {
      var sum := a[i] + b[i];
      result[i] := Saturate(sum);
    }
    r := result[..];
  }

  /** subtracao_vetorial: as VectorAdd, with the exact difference. */
  method VectorSubtract(a: seq<int>, b: seq<int>) returns (r: seq<int>)
    requires |a| >= Lanes && |b| >= Lanes
    ensures r == SaturatingSub(a, b)
    ensures IsLaneVector(r)
  {
    var result := new int[Lanes](_ => 0);
    for i := 0 to Lanes
      invariant forall k :: 0 <= k < i ==> result[k] == Saturate(a[k] - b[k])
    {
      var diff := a[i] - b[i];
      result[i] := Saturate(diff);
    }
    r := result[..];
  }

  /** produto_escalar: the accumulator adds up the four lane products and is
      never clamped. */
  method DotProduct(a: seq<int>, b: seq<int>) returns (acc: int)
    requires |a| >= Lanes && |b| >= Lanes
    ensures acc == Dot(a, b)
  {
    acc := 0;
    for i := 0 to Lanes
      invariant acc == DotPrefix(a, b, i)
    {
      var product := a[i] * b[i];
      acc := acc + product;
    }
  }

  // ---------------------------------------------------------------------------
  // Properties of the vector operations
  // ---------------------------------------------------------------------------

  /** Per-lane saturation boundary of the sum: 127 above, -128 below, the
      exact sum otherwise. */
  lemma SaturatingAddLanes(a: seq<int>, b: seq<int>, i: nat)
    requires |a| >= Lanes && |b| >= Lanes && i < Lanes
    ensures a[i] + b[i] > MaxVal ==> SaturatingAdd(a, b)[i] == MaxVal
    ensures a[i] + b[i] < MinVal ==> SaturatingAdd(a, b)[i] == MinVal
    ensures IsLane(a[i] + b[i]) ==> SaturatingAdd(a, b)[i] == a[i] + b[i]
  {
  }

  /** Subtracting the largest lane from the smallest saturates at -128. */
  lemma SubtractSaturatesLow()
    ensures SaturatingSub([-128, -128, -128, -128], [127, 127, 127, 127]) == [-128, -128, -128, -128]
  {
  }

  /** Multiplication of non-negative integers is monotonic in both factors. */
  lemma MulMonotonic(x: int, y: int, c: int, d: int)
    requires 0 <= x <= c && 0 <= y <= d
    ensures x * y <= c * d
  {
    assert x * y <= c * y;
    assert c * y <= c * d;
  }

  /** The product of two int8 lanes lies in [-16256, 16384]. */
  lemma LaneProductBounds(x: int, y: int)
    requires IsLane(x) && IsLane(y)
    ensures -16256 <= x * y <= 16384
  {
    if x >= 0 && y >= 0 {
      MulMonotonic(x, y, 127, 127);
    } else if x < 0 && y < 0 {
      MulMonotonic(-x, -y, 128, 128);
      assert x * y == (-x) * (-y);
    } else if x < 0 {
      MulMonotonic(-x, y, 128, 127);
      assert x * y == -((-x) * y);
    } else {
      MulMonotonic(x, -y, 127, 128);
      assert x * y == -(x * (-y));
    }
  }

  /** Each lane contributes a product in [-16256, 16384] to the prefix. */
  lemma {:induction false} DotPrefixBounds(a: seq<int>, b: seq<int>, n: nat)
    requires IsLaneVector(a) && IsLaneVector(b) && n <= Lanes
    ensures -16256 * n <= DotPrefix(a, b, n) <= 16384 * n
  {
    if n > 0 {
      DotPrefixBounds(a, b, n - 1);
      LaneProductBounds(a[n - 1], b[n - 1]);
    }
  }

  /** For int8 lanes the dot product lies in [-65024, 65536], which is
      inside the signed 32-bit range the program documents for it. */
  lemma DotBounds(a: seq<int>, b: seq<int>)
    requires IsLaneVector(a) && IsLaneVector(b)
    ensures -65024 <= Dot(a, b) <= 65536
    ensures -0x8000_0000 <= Dot(a, b) < 0x8000_0000
  {
    DotPrefixBounds(a, b, Lanes);
  }

  /** The accumulator is not saturated: four maximal products add up to
      64516, far outside the int8 range. */
  lemma DotNotSaturated()
    ensures Dot([127, 127, 127, 127], [127, 127, 127, 127]) == 64516
    ensures !IsLane(Dot([127, 127, 127, 127], [127, 127, 127, 127]))
  {
    var v := [127, 127, 127, 127];
    assert DotPrefix(v, v, 1) == 16129;
    assert DotPrefix(v, v, 2) == 32258;
    assert DotPrefix(v, v, 3) == 48387;
  }

  // ---------------------------------------------------------------------------
  // Benchmark
  // ---------------------------------------------------------------------------

  datatype Option<T> = None | Some(value: T)

  /** The value an operation returns: a vector or a scalar. */
  datatype OpResult = VectorResult(lanes: seq<int>) | ScalarResult(value: int)

  /** Why the benchmark raises instead of returning. */
  datatype BenchmarkError =
    | ZeroIterations    // division by num_iteracoes == 0 (ZeroDivisionError)
    | ResultUnbound     // no timed iteration assigned `resultado` (UnboundLocalError)

  /** The pair (mean time in microseconds, last result), or the error. */
  datatype BenchmarkOutcome =
    | Measured(meanUs: real, result: OpResult)
    | Failed(error: BenchmarkError)

  /** The operation names the dispatch recognises. */
  predicate IsKnownOp(op: string) {
    op == "soma" || op == "subtracao" || op == "produto_escalar"
  }

  /** What one call of the named operation returns. Only a known operation
      reads the lanes, so only then must there be four of them. */
  function Apply(op: string, a: seq<int>, b: seq<int>): Option<OpResult>
    requires IsKnownOp(op) ==> |a| >= Lanes && |b| >= Lanes
  {
    if op == "soma" then Some(VectorResult(SaturatingAdd(a, b)))
    else if op == "subtracao" then Some(VectorResult(SaturatingSub(a, b)))
    else if op == "produto_escalar" then Some(ScalarResult(Dot(a, b)))
    else None
  }

  /** One dispatch step of the benchmark loop: calls the named operation, or
      does nothing for an unknown name. */
  method RunOnce(op: string, a: seq<int>, b: seq<int>) returns (r: Option<OpResult>)
    requires IsKnownOp(op) ==> |a| >= Lanes && |b| >= Lanes
    ensures r == Apply(op, a, b)
    ensures r.Some? <==> IsKnownOp(op)
  {
    if op == "soma" {
      var v := VectorAdd(a, b);
      r := Some(VectorResult(v));
    } else if op == "subtracao" {
      var v := VectorSubtract(a, b);
      r := Some(VectorResult(v));
    } else if op == "produto_escalar" {
      var s := DotProduct(a, b);
      r := Some(ScalarResult(s));
    } else {
      r := None;
    }
  }

  /** benchmark_operacao: 100 discarded warm-up calls, then `iterations`
      timed calls; `elapsedSeconds` stands for the clock difference around
      the timed loop. Returns the mean time per call in microseconds and the
      last result, or the error the program raises. */
  method BenchmarkOperation(op: string, a: seq<int>, b: seq<int>, iterations: int, elapsedSeconds: real)
    returns (outcome: BenchmarkOutcome)
    requires IsKnownOp(op) ==> |a| >= Lanes && |b| >= Lanes
    ensures iterations == 0 ==> outcome == Failed(ZeroIterations)
    ensures iterations != 0 && (iterations < 0 || !IsKnownOp(op)) ==> outcome == Failed(ResultUnbound)
    ensures outcome.Measured? <==> iterations > 0 && IsKnownOp(op)
    ensures outcome.Measured? ==>
              && Some(outcome.result) == Apply(op, a, b)
              && outcome.meanUs * (iterations as real) == elapsedSeconds * 1000000.0
  {
    // Warm-up: results are discarded.
    for w := 0 to 100 {
      var discarded := RunOnce(op, a, b);
    }

    // Timed region: every iteration reassigns the result with the same value.
    var result: Option<OpResult> := None;
    var i := 0;
    while i < iterations
      invariant 0 <= i <= if iterations < 0 then 0 else iterations
      invariant result == if i == 0 then None else Apply(op, a, b)
    {
      var r := RunOnce(op, a, b);
      if r.Some? {
        result := r;
      }
      i := i + 1;
    }

    if iterations == 0 {
      return Failed(ZeroIterations);
    }
    var meanUs := (elapsedSeconds / iterations as real) * 1000000.0;
    if result.None? {
      return Failed(ResultUnbound);
    }
    outcome := Measured(meanUs, result.value);
  }
}
