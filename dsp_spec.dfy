/** Closed-form specifications of the blocks of dsp.js.

    For every block kind `X`, `XAt(inputs, output, j)` is the value output
    position `j` holds after one run of the block's closure, given the
    contents of its input buffers and the previous contents of its output
    buffer, and `XOut` is the whole new output.  Positions the closure does
    not write keep their previous value.  The loops that compute these
    values in place are in module Dsp; the lemmas here state what the
    closed forms mean. */
module DspSpec {
  import opened Samples

  // ---------------------------------------------------------------------
  // ToComplex and AMModulator

  /** The number of iterations of `for (i = 0; i < limit; i++)` with
      `limit = Math.min(audioin.length, iqout.length / 2)`, the division
      being JavaScript's real division (see HalfLimitCountsIterations). */
  function HalfLimit(inLen: nat, outLen: nat): nat {
    Min(inLen, (outLen + 1) / 2)
  }

  function RealMin(a: real, b: real): real {
    if a <= b then a else b
  }

  /** An integer loop counter `i` passes `i < limit` for the real limit
      exactly when it is below HalfLimit. */
  lemma HalfLimitCountsIterations(inLen: nat, outLen: nat, i: nat)
    ensures (i as real) < RealMin(inLen as real, outLen as real / 2.0)
            <==> i < HalfLimit(inLen, outLen)
  {
  }

  function ToComplexAt(input: seq<Sample>, output: seq<Sample>, j: int): Sample
    requires 0 <= j < |output|
  {
    if j / 2 < HalfLimit(|input|, |output|) then
      if j % 2 == 0 then input[j / 2] else Num(0.0)
    else
      output[j]
  }

  function ToComplexOut(input: seq<Sample>, output: seq<Sample>): (r: seq<Sample>)
    ensures |r| == |output|
  {
    seq(|output|, j requires 0 <= j < |output| => ToComplexAt(input, output, j))
  }

  function AMModulatorAt(input: seq<Sample>, output: seq<Sample>, j: int): Sample
    requires 0 <= j < |output|
  {
    if j / 2 < HalfLimit(|input|, |output|) then
      if j % 2 == 0 then Plus(Num(1.0), input[j / 2]) else Num(0.0)
    else
      output[j]
  }

  function AMModulatorOut(input: seq<Sample>, output: seq<Sample>): (r: seq<Sample>)
    ensures |r| == |output|
  {
    seq(|output|, j requires 0 <= j < |output| => AMModulatorAt(input, output, j))
  }

  /** ToComplex puts sample i on the real part of pair i, zeroes the
      imaginary part, and leaves every index from 2*limit on untouched. */
  lemma ToComplexPairs(input: seq<Sample>, output: seq<Sample>)
    ensures var r := ToComplexOut(input, output);
            var limit := HalfLimit(|input|, |output|);
            (forall i :: 0 <= i < limit ==>
               r[2 * i] == input[i] && (2 * i + 1 < |output| ==> r[2 * i + 1] == Num(0.0))) &&
            (forall j :: 2 * limit <= j < |output| ==> r[j] == output[j])
  {
    var r := ToComplexOut(input, output);
    var limit := HalfLimit(|input|, |output|);
    forall i | 0 <= i < limit
      ensures r[2 * i] == input[i] && (2 * i + 1 < |output| ==> r[2 * i + 1] == Num(0.0))
    {
      assert (2 * i) / 2 == i && (2 * i) % 2 == 0;
      assert (2 * i + 1) / 2 == i && (2 * i + 1) % 2 == 1;
    }
    forall j | 2 * limit <= j < |output|
      ensures r[j] == output[j]
    {
      assert j / 2 >= limit;
    }
  }

  /** AMModulator puts 1 + sample i on the real part of pair i, zeroes
      the imaginary part, and leaves every index from 2*limit on untouched. */
  lemma AMModulatorPairs(input: seq<Sample>, output: seq<Sample>, j: int)
    requires 0 <= j < |output|
    ensures var r := AMModulatorOut(input, output);
            var limit := HalfLimit(|input|, |output|);
            (j < 2 * limit && j % 2 == 0 ==> r[j] == Plus(Num(1.0), input[j / 2])) &&
            (j < 2 * limit && j % 2 == 1 ==> r[j] == Num(0.0)) &&
            (j >= 2 * limit ==> r[j] == output[j])
  {
  }

  /** ToComplex on [a0, a1, a2] into a buffer of six gives [a0,0, a1,0, a2,0]. */
  lemma ToComplexThreeSamples(a0: Sample, a1: Sample, a2: Sample, output: seq<Sample>)
    requires |output| == 6
    ensures ToComplexOut([a0, a1, a2], output)
            == [a0, Num(0.0), a1, Num(0.0), a2, Num(0.0)]
  {
    var r := ToComplexOut([a0, a1, a2], output);
    assert r[0] == a0 && r[2] == a1 && r[4] == a2;
  }

  // ---------------------------------------------------------------------
  // FMModulator

  function FMLimit(inLen: nat, outLen: nat): nat {
    Min(inLen, outLen / 2)
  }

  /** The lengths for which the FMModulator loops use integer indices:
      `limit = Math.min(audioin.length, iqout.length / 2)` is an even
      integer (see FMShapeIsEvenLimit).  An odd output length qualifies
      when the input is the shorter side. */
  predicate FMShape(inLen: nat, outLen: nat) {
    (outLen % 2 == 0 || 2 * inLen < outLen) && FMLimit(inLen, outLen) % 2 == 0
  }

  /** FMShape holds exactly when the JavaScript limit, computed with real
      division, is the even integer FMLimit. */
  lemma FMShapeIsEvenLimit(inLen: nat, outLen: nat)
    ensures FMShape(inLen, outLen) <==>
            RealMin(inLen as real, outLen as real / 2.0) == FMLimit(inLen, outLen) as real &&
            FMLimit(inLen, outLen) % 2 == 0
  {
    var q := outLen / 2;
    assert outLen as real / 2.0 == q as real + (outLen % 2) as real / 2.0;
  }

  /** Phase after the forward loop has processed samples h..k. */
  function Fwd(s: seq<Sample>, h: nat, k: int, deviation: real): Sample
    requires h <= k + 1 && k < |s|
    decreases k + 1 - h
  {
    if k < h then Num(0.0)
    else Plus(Fwd(s, h, k - 1, deviation), Times(s[k], Num(deviation)))
  }

  /** Phase after the backward loop has processed samples h-1 down to k. */
  function Bwd(s: seq<Sample>, h: nat, k: int, deviation: real): Sample
    requires 0 <= k <= h <= |s|
    decreases h - k
  {
    if k == h then Num(0.0)
    else Minus(Bwd(s, h, k + 1, deviation), Times(s[k], Num(deviation)))
  }

  /** The phase with which complex pair k is emitted. */
  function FMPhase(s: seq<Sample>, limit: nat, k: nat, deviation: real): Sample
    requires k < limit <= |s|
  {
    var h := limit / 2;
    if k >= h then Fwd(s, h, k, deviation) else Bwd(s, h, k, deviation)
  }

  function FMModulatorAt(input: seq<Sample>, output: seq<Sample>, deviation: real,
                         m: Trig, j: int): Sample
    requires FMShape(|input|, |output|)
    requires 0 <= j < |output|
  {
    var limit := FMLimit(|input|, |output|);
    if j / 2 < limit then
      var phase := FMPhase(input, limit, j / 2, deviation);
      if j % 2 == 0 then LiftCos(m, phase) else LiftSin(m, phase)
    else
      output[j]
  }

  function FMModulatorOut(input: seq<Sample>, output: seq<Sample>, deviation: real,
                          m: Trig): (r: seq<Sample>)
    requires FMShape(|input|, |output|)
    ensures |r| == |output|
  {
    seq(|output|, j requires 0 <= j < |output| =>
      FMModulatorAt(input, output, deviation, m, j))
  }

  /** The two values of complex pair k below the limit. */
  lemma FMModulatorAtPair(input: seq<Sample>, output: seq<Sample>, deviation: real,
                          m: Trig, k: nat)
    requires FMShape(|input|, |output|)
    requires k < FMLimit(|input|, |output|)
    ensures var phase := FMPhase(input, FMLimit(|input|, |output|), k, deviation);
            FMModulatorAt(input, output, deviation, m, 2 * k) == LiftCos(m, phase) &&
            FMModulatorAt(input, output, deviation, m, 2 * k + 1) == LiftSin(m, phase)
  {
    assert (2 * k + 1) / 2 == k;
  }

  /** Summing from the front agrees with summing from the back. */
  lemma {:induction false} SumRFront(s: seq<Sample>, lo: int, hi: int)
    requires 0 <= lo < hi <= |s|
    requires forall k :: lo <= k < hi ==> s[k].Num?
    ensures SumR(s, lo, hi) == s[lo].r + SumR(s, lo + 1, hi)
  {
    if hi - 1 > lo {
      SumRFront(s, lo, hi - 1);
    }
  }

  /** Forward from the midpoint, the phase is the deviation times the sum
      of the samples from the midpoint up to and including k. */
  lemma {:induction false} FwdIsScaledSum(s: seq<Sample>, h: nat, k: int, deviation: real)
    requires h <= k + 1 && k < |s|
    requires forall i :: h <= i <= k ==> s[i].Num?
    ensures Fwd(s, h, k, deviation) == Num(deviation * SumR(s, h, k + 1))
  {
    if k >= h {
      FwdIsScaledSum(s, h, k - 1, deviation);
      var before := SumR(s, h, k);
      assert SumR(s, h, k + 1) == before + s[k].r;
      ScaleSum(deviation, before, s[k].r);
    }
  }

  /** Scaling distributes over a sum. */
  lemma ScaleSum(d: real, a: real, x: real)
    ensures d * (a + x) == d * a + x * d
  {
  }

  /** Backward from the midpoint, the phase is minus the deviation times
      the sum of the samples from k up to the midpoint (exclusive). */
  lemma {:induction false} BwdIsScaledSum(s: seq<Sample>, h: nat, k: int, deviation: real)
    requires 0 <= k <= h <= |s|
    requires forall i :: k <= i < h ==> s[i].Num?
    ensures Bwd(s, h, k, deviation) == Num(-(deviation * SumR(s, k, h)))
    decreases h - k
  {
    if k < h {
      BwdIsScaledSum(s, h, k + 1, deviation);
      SumRFront(s, k, h);
      assert deviation * SumR(s, k, h)
          == s[k].r * deviation + deviation * SumR(s, k + 1, h);
    }
  }

  /** The closed form of the phase of pair k, for numeric input. */
  function FMClosedPhase(s: seq<Sample>, limit: nat, k: nat, deviation: real): real
    requires k < limit <= |s|
    requires AllNum(s)
  {
    if k >= limit / 2 then deviation * SumR(s, limit / 2, k + 1)
    else -(deviation * SumR(s, k, limit / 2))
  }

  /** The phase restarts from 0 at the midpoint in both directions: the
      scaled sum of the samples from the midpoint to k for the upper half,
      minus the scaled sum of the samples from k to the midpoint for the
      lower half. */
  lemma FMPhaseIsClosed(s: seq<Sample>, limit: nat, k: nat, deviation: real)
    requires k < limit <= |s|
    requires AllNum(s)
    ensures FMPhase(s, limit, k, deviation) == Num(FMClosedPhase(s, limit, k, deviation))
  {
    if k >= limit / 2 {
      FwdIsScaledSum(s, limit / 2, k, deviation);
    } else {
      BwdIsScaledSum(s, limit / 2, k, deviation);
    }
  }

  /** FMModulator emits pair k, for every k below the limit, as
      (cos phase, sin phase) with the closed-form phase above. */
  lemma FMModulatorPairs(input: seq<Sample>, output: seq<Sample>, deviation: real,
                         m: Trig, k: nat)
    requires FMShape(|input|, |output|)
    requires k < FMLimit(|input|, |output|)
    requires AllNum(input)
    ensures var r := FMModulatorOut(input, output, deviation, m);
            var phase := FMClosedPhase(input, FMLimit(|input|, |output|), k, deviation);
            r[2 * k] == Num(m.cos(phase)) && r[2 * k + 1] == Num(m.sin(phase))
  {
    var limit := FMLimit(|input|, |output|);
    var r := FMModulatorOut(input, output, deviation, m);
    assert r[2 * k] == FMModulatorAt(input, output, deviation, m, 2 * k);
    assert r[2 * k + 1] == FMModulatorAt(input, output, deviation, m, 2 * k + 1);
    assert (2 * k + 1) / 2 == k;
    FMPhaseIsClosed(input, limit, k, deviation);
  }

  /** FMModulator leaves the output from 2*limit on untouched. */
  lemma FMModulatorUntouched(input: seq<Sample>, output: seq<Sample>, deviation: real,
                             m: Trig, j: int)
    requires FMShape(|input|, |output|)
    requires 2 * FMLimit(|input|, |output|) <= j < |output|
    ensures FMModulatorOut(input, output, deviation, m)[j] == output[j]
  {
  }

  // ---------------------------------------------------------------------
  // FIRFilter

  function FirStart(outLen: nat, valdelay: int): int {
    Min(outLen, Max(0, valdelay))
  }

  function FirLimit(inLen: nat, outLen: nat, ntaps: nat, valdelay: int): int {
    Min(Max(0, inLen - ntaps - valdelay), outLen)
  }

  /** Iterations of `for (j = 0; j < ntaps * step; j += step)`: ntaps for
      a positive step, none otherwise. */
  function FirIterations(ntaps: nat, step: int): nat {
    if step > 0 then ntaps else 0
  }

  /** The accumulator after the first n taps, starting from input index base. */
  function FirSum(s: seq<Sample>, base: int, step: int, taps: seq<real>, n: nat): Sample
    requires n <= |taps|
  {
    if n == 0 then Num(0.0)
    else Plus(FirSum(s, base, step, taps, n - 1),
              Times(At(s, base + (n - 1) * step), Num(taps[n - 1])))
  }

  function FirAt(input: seq<Sample>, output: seq<Sample>, step: int, delay: int,
                 taps: seq<real>, j: int): Sample
    requires 0 <= j < |output|
  {
    var valdelay := delay * step;
    if j < FirStart(|output|, valdelay) then Num(0.0)
    else if j < FirLimit(|input|, |output|, |taps|, valdelay) then
      FirSum(input, j + valdelay, step, taps, FirIterations(|taps|, step))
    else Num(0.0)
  }

  function FirOut(input: seq<Sample>, output: seq<Sample>, step: int, delay: int,
                  taps: seq<real>): (r: seq<Sample>)
    ensures |r| == |output|
  {
    seq(|output|, j requires 0 <= j < |output| => FirAt(input, output, step, delay, taps, j))
  }

  /** FIRFilter writes every index of its output: the result does not
      depend on what the output buffer held before. */
  lemma FirOverwritesAll(input: seq<Sample>, o1: seq<Sample>, o2: seq<Sample>,
                         step: int, delay: int, taps: seq<real>)
    requires |o1| == |o2|
    ensures FirOut(input, o1, step, delay, taps) == FirOut(input, o2, step, delay, taps)
  {
  }

  /** The three regions of one FIRFilter run: zeros below start, the tap
      sums on [start, limit), zeros from max(start, limit) to the end. */
  lemma FirRegions(input: seq<Sample>, output: seq<Sample>, step: int, delay: int,
                   taps: seq<real>, j: int)
    requires 0 <= j < |output|
    ensures var r := FirOut(input, output, step, delay, taps);
            var start := FirStart(|output|, delay * step);
            var limit := FirLimit(|input|, |output|, |taps|, delay * step);
            (j < start ==> r[j] == Num(0.0)) &&
            (start <= j < limit ==>
               r[j] == FirSum(input, j + delay * step, step, taps, FirIterations(|taps|, step))) &&
            (Max(start, limit) <= j ==> r[j] == Num(0.0))
  {
  }

  /** Once one tap reads outside the input, the accumulator is NaN. */
  lemma {:induction false} FirSumNaN(s: seq<Sample>, base: int, step: int, taps: seq<real>,
                                    n: nat, k: nat)
    requires n <= |taps|
    requires k < n
    requires !(0 <= base + k * step < |s|)
    ensures FirSum(s, base, step, taps, n) == NaN
  {
    if k < n - 1 {
      FirSumNaN(s, base, step, taps, n - 1, k);
    }
  }

  /** With step 1 and a non-negative delay, every tap of every computed
      position reads inside the input. */
  lemma FirReadsInBounds(inLen: nat, outLen: nat, ntaps: nat, delay: int, j: int, k: int)
    requires delay >= 0
    requires FirStart(outLen, delay) <= j < FirLimit(inLen, outLen, ntaps, delay)
    requires 0 <= k < ntaps
    ensures 0 <= j + delay + k * 1 < inLen
  {
  }

  /** With step 1, an accumulator whose n reads all fall inside a numeric
      input is a number. */
  lemma {:induction false} FirSumNumeric(s: seq<Sample>, base: int, taps: seq<real>, n: nat)
    requires n <= |taps| && AllNum(s)
    requires 0 <= base && base + n <= |s|
    ensures FirSum(s, base, 1, taps, n).Num?
  {
    if n > 0 {
      FirSumNumeric(s, base, taps, n - 1);
      assert 0 <= base + (n - 1) * 1 < |s|;
    }
  }

  /** So, with step 1 and a non-negative delay, every computed position of
      a filtered numeric input is a number: no read falls outside it. */
  lemma FirNumericInBounds(input: seq<Sample>, output: seq<Sample>, delay: int,
                           taps: seq<real>, j: int)
    requires delay >= 0 && AllNum(input)
    requires 0 <= j < |output|
    requires FirStart(|output|, delay) <= j < FirLimit(|input|, |output|, |taps|, delay)
    ensures FirOut(input, output, 1, delay, taps)[j].Num?
  {
    FirSumNumeric(input, j + delay, taps, |taps|);
  }

  /** With step 2, no delay and three or more taps (the complex filters of
      the two-signal graph), the last computed position reads past the end
      of the input, so it comes out NaN. */
  lemma FirComplexStepOverruns(input: seq<Sample>, output: seq<Sample>, taps: seq<real>)
    requires |taps| >= 3
    requires |input| - |taps| - 1 >= 0
    requires |input| - |taps| <= |output|
    ensures var j := |input| - |taps| - 1;
            j < FirLimit(|input|, |output|, |taps|, 0) &&
            j + 2 * (|taps| - 1) >= |input| &&
            FirOut(input, output, 2, 0, taps)[j] == NaN
  {
    var j := |input| - |taps| - 1;
    FirSumNaN(input, j, 2, taps, |taps|, |taps| - 1);
  }

  /** With a negative delay, start is 0, so the first positions read
      below index 0 and come out NaN. */
  lemma FirNegativeDelayUnderruns(input: seq<Sample>, output: seq<Sample>, step: int,
                                  delay: int, taps: seq<real>, j: int)
    requires step > 0 && delay < 0 && |taps| > 0
    requires 0 <= j < FirLimit(|input|, |output|, |taps|, delay * step)
    requires j + delay * step < 0
    ensures FirStart(|output|, delay * step) == 0
    ensures FirOut(input, output, step, delay, taps)[j] == NaN
  {
    FirSumNaN(input, j + delay * step, step, taps, |taps|, 0);
  }

  /** The single unit tap with no delay and step 1 copies the input on the
      computed region [0, min(in.length - 1, out.length)). */
  lemma FirUnitTapIsIdentity(input: seq<Sample>, output: seq<Sample>, j: int)
    requires 0 <= j < Min(|input| - 1, |output|)
    ensures FirOut(input, output, 1, 0, [1.0])[j] == input[j]
  {
    assert FirOut(input, output, 1, 0, [1.0])[j] == FirAt(input, output, 1, 0, [1.0], j);
    assert FirSum(input, j, 1, [1.0], 0) == Num(0.0);
    assert FirSum(input, j, 1, [1.0], 1)
        == Plus(Num(0.0), Times(At(input, j), Num(1.0)));
  }

  // ---------------------------------------------------------------------
  // Add and Multiply

  function AddAt(a: seq<Sample>, b: seq<Sample>, output: seq<Sample>, j: int): Sample
    requires 0 <= j < |output|
  {
    if j < Min3(|a|, |b|, |output|) then Plus(a[j], b[j]) else output[j]
  }

  function AddOut(a: seq<Sample>, b: seq<Sample>, output: seq<Sample>): (r: seq<Sample>)
    ensures |r| == |output|
  {
    seq(|output|, j requires 0 <= j < |output| => AddAt(a, b, output, j))
  }

  /** Add is the elementwise sum below min(in1, in2, out) and leaves
      the rest of the output untouched. */
  lemma AddIsElementwiseSum(a: seq<Sample>, b: seq<Sample>, output: seq<Sample>, j: int)
    requires 0 <= j < |output|
    ensures var r := AddOut(a, b, output);
            (j < Min3(|a|, |b|, |output|) ==> j < |a| && j < |b| && r[j] == Plus(a[j], b[j])) &&
            (j >= Min3(|a|, |b|, |output|) ==> r[j] == output[j])
  {
  }

  function MultiplyAt(a: seq<Sample>, b: seq<Sample>, output: seq<Sample>, j: int): Sample
    requires 0 <= j < |output|
  {
    var i := j - j % 2;
    if i < Min3(|a|, |b|, |output|) then
      if j % 2 == 0 then Minus(Times(a[i], b[i]), Times(At(a, i + 1), At(b, i + 1)))
      else Plus(Times(At(a, i + 1), b[i]), Times(a[i], At(b, i + 1)))
    else
      output[j]
  }

  function MultiplyOut(a: seq<Sample>, b: seq<Sample>, output: seq<Sample>): (r: seq<Sample>)
    ensures |r| == |output|
  {
    seq(|output|, j requires 0 <= j < |output| => MultiplyAt(a, b, output, j))
  }

  /** The complex product does not depend on the order of its inputs. */
  lemma MultiplyCommutes(a: seq<Sample>, b: seq<Sample>, output: seq<Sample>)
    ensures MultiplyOut(a, b, output) == MultiplyOut(b, a, output)
  {
    var r1 := MultiplyOut(a, b, output);
    var r2 := MultiplyOut(b, a, output);
    forall j | 0 <= j < |output|
      ensures r1[j] == r2[j]
    {
      var i := j - j % 2;
      if i < Min3(|a|, |b|, |output|) {
        var x, y := At(a, i + 1), At(b, i + 1);
        if x.Num? && y.Num? && a[i].Num? && b[i].Num? {
          assert a[i].r * b[i].r == b[i].r * a[i].r;
          assert x.r * y.r == y.r * x.r;
          assert x.r * b[i].r + a[i].r * y.r == y.r * a[i].r + b[i].r * x.r;
        }
      }
    }
  }

  /** (1 + 0j)(0 + 1j) = 0 + 1j. */
  lemma MultiplyOneByJ(output: seq<Sample>)
    requires |output| == 2
    ensures var r := MultiplyOut([Num(1.0), Num(0.0)], [Num(0.0), Num(1.0)], output);
            r[0] == Num(0.0) && r[1] == Num(1.0)
  {
    var a, b := [Num(1.0), Num(0.0)], [Num(0.0), Num(1.0)];
    assert Min3(|a|, |b|, |output|) == 2;
    assert MultiplyAt(a, b, output, 0) == Minus(Times(a[0], b[0]), Times(a[1], b[1]));
    assert MultiplyAt(a, b, output, 1) == Plus(Times(a[1], b[0]), Times(a[0], b[1]));
  }

  /** With an even limit Multiply writes exactly the indices below
      min(in1, in2, out) and leaves the rest untouched. */
  lemma MultiplyEvenLimitRegion(a: seq<Sample>, b: seq<Sample>, output: seq<Sample>, j: int)
    requires Min3(|a|, |b|, |output|) % 2 == 0
    requires Min3(|a|, |b|, |output|) <= j < |output|
    ensures MultiplyOut(a, b, output)[j] == output[j]
  {
  }

  /** The product on pair k is the complex product of the input pairs. */
  lemma MultiplyIsComplexProduct(a: seq<Sample>, b: seq<Sample>, output: seq<Sample>, k: nat)
    requires 2 * k + 1 < Min3(|a|, |b|, |output|)
    requires a[2 * k].Num? && a[2 * k + 1].Num? && b[2 * k].Num? && b[2 * k + 1].Num?
    ensures var r := MultiplyOut(a, b, output);
            var aI, aQ, bI, bQ := a[2 * k].r, a[2 * k + 1].r, b[2 * k].r, b[2 * k + 1].r;
            r[2 * k] == Num(aI * bI - aQ * bQ) && r[2 * k + 1] == Num(aQ * bI + aI * bQ)
  {
    var r := MultiplyOut(a, b, output);
    assert r[2 * k] == MultiplyAt(a, b, output, 2 * k);
    assert r[2 * k + 1] == MultiplyAt(a, b, output, 2 * k + 1);
    assert (2 * k + 1) - (2 * k + 1) % 2 == 2 * k;
  }

  // ---------------------------------------------------------------------
  // Rotator

  function RotatorAt(input: seq<Sample>, output: seq<Sample>, radiansPerSample: real,
                     m: Trig, j: int): Sample
    requires 0 <= j < |output|
  {
    var i := j - j % 2;
    if i < Min(|input|, |output|) then
      var phase := Phase(j / 2, radiansPerSample);
      var s, c := m.sin(phase), m.cos(phase);
      if j % 2 == 0 then Minus(Times(Num(c), input[i]), Times(Num(s), At(input, i + 1)))
      else Plus(Times(Num(s), input[i]), Times(Num(c), At(input, i + 1)))
    else
      output[j]
  }

  function RotatorOut(input: seq<Sample>, output: seq<Sample>, radiansPerSample: real,
                      m: Trig): (r: seq<Sample>)
    ensures |r| == |output|
  {
    seq(|output|, j requires 0 <= j < |output| => RotatorAt(input, output, radiansPerSample, m, j))
  }

  /** Pair k of the output is input pair k rotated by k * radiansPerSample. */
  lemma RotatorRotatesPair(input: seq<Sample>, output: seq<Sample>, radiansPerSample: real,
                           m: Trig, k: nat)
    requires 2 * k + 1 < Min(|input|, |output|)
    requires input[2 * k].Num? && input[2 * k + 1].Num?
    ensures var r := RotatorOut(input, output, radiansPerSample, m);
            var theta := (k as real) * radiansPerSample;
            var x, y := input[2 * k].r, input[2 * k + 1].r;
            r[2 * k] == Num(m.cos(theta) * x - m.sin(theta) * y) &&
            r[2 * k + 1] == Num(m.sin(theta) * x + m.cos(theta) * y)
  {
    PhaseIsProduct(k, radiansPerSample);
    var r := RotatorOut(input, output, radiansPerSample, m);
    assert r[2 * k] == RotatorAt(input, output, radiansPerSample, m, 2 * k);
    assert r[2 * k + 1] == RotatorAt(input, output, radiansPerSample, m, 2 * k + 1);
    assert (2 * k + 1) / 2 == k && (2 * k + 1) - (2 * k + 1) % 2 == 2 * k;
  }

  /** With radiansPerSample = 0 the Rotator copies every numeric input pair
      on the first min(in.length, out.length) indices. */
  lemma RotatorZeroIsIdentity(input: seq<Sample>, output: seq<Sample>, m: Trig, j: int)
    requires m.Valid()
    requires 0 <= j < Min(|input|, |output|)
    requires At(input, j - j % 2).Num? && At(input, j - j % 2 + 1).Num?
    ensures RotatorOut(input, output, 0.0, m)[j] == input[j]
  {
    PhaseIsProduct(j / 2, 0.0);
  }

  /** The Rotator leaves the output from min(in.length, out.length) on
      untouched, except for the imaginary part of a final half pair. */
  lemma RotatorUntouched(input: seq<Sample>, output: seq<Sample>, radiansPerSample: real,
                         m: Trig, j: int)
    requires Min(|input|, |output|) <= j - j % 2 && j < |output|
    ensures RotatorOut(input, output, radiansPerSample, m)[j] == output[j]
  {
  }

  // ---------------------------------------------------------------------
  // Siggen

  function SiggenAt(output: seq<Sample>, radiansPerSample: real, m: Trig, j: int): Sample
    requires 0 <= j < |output|
  {
    var phase := Phase(j / 2, radiansPerSample);
    if j % 2 == 0 then Num(m.cos(phase)) else Num(m.sin(phase))
  }

  function SiggenOut(output: seq<Sample>, radiansPerSample: real, m: Trig): (r: seq<Sample>)
    ensures |r| == |output|
  {
    seq(|output|, j requires 0 <= j < |output| => SiggenAt(output, radiansPerSample, m, j))
  }

  /** Siggen writes pair k as (cos(k*d), sin(k*d)) over the whole output:
      it starts at (1, 0) and does not depend on the previous contents. */
  lemma SiggenPairs(output: seq<Sample>, other: seq<Sample>, radiansPerSample: real,
                    m: Trig, k: nat)
    requires m.Valid()
    requires |other| == |output|
    requires 2 * k < |output|
    ensures var r := SiggenOut(output, radiansPerSample, m);
            var theta := (k as real) * radiansPerSample;
            r[2 * k] == Num(m.cos(theta)) &&
            (2 * k + 1 < |output| ==> r[2 * k + 1] == Num(m.sin(theta))) &&
            r[0] == Num(1.0) && (1 < |output| ==> r[1] == Num(0.0)) &&
            r == SiggenOut(other, radiansPerSample, m)
  {
    PhaseIsProduct(k, radiansPerSample);
    var r := SiggenOut(output, radiansPerSample, m);
    assert r[0] == SiggenAt(output, radiansPerSample, m, 0);
    assert 1 < |output| ==> r[1] == SiggenAt(output, radiansPerSample, m, 1);
    assert 2 * k + 1 < |output| ==> (2 * k + 1) / 2 == k;
  }

  // ---------------------------------------------------------------------
  // LinearInterpolator

  /** `Math.floor(iqout.length / iqin.length)`; 0 stands for the two
      degenerate cases, in both of which every value stored is NaN.  An
      empty input gives Infinity: position, index and fraction are 0, but
      every read of the empty input is undefined.  A shorter output gives
      0: position and index are NaN or Infinity, so the reads are
      undefined. */
  function Interpolation(inLen: nat, outLen: nat): nat {
    if inLen == 0 then 0 else outLen / inLen
  }

  function LinearAt(input: seq<Sample>, output: seq<Sample>, j: int): Sample
    requires 0 <= j < |output|
  {
    var f := Interpolation(|input|, |output|);
    if f == 0 then NaN
    else
      var k := j / 2;
      var fraction := (k % f) as real / f as real;
      var i := 2 * (k / f);
      if j % 2 == 0 then
        Plus(Times(At(input, i), Num(1.0 - fraction)), Times(At(input, i + 2), Num(fraction)))
      else
        Plus(Times(At(input, i + 1), Num(1.0 - fraction)), Times(At(input, i + 3), Num(fraction)))
  }

  function LinearOut(input: seq<Sample>, output: seq<Sample>): (r: seq<Sample>)
    ensures |r| == |output|
  {
    seq(|output|, j requires 0 <= j < |output| => LinearAt(input, output, j))
  }

  /** For output pair k (at even index 2k), `position = j / (interpolation*2)`
      has integer part k div f and fractional part (k mod f) / f, which
      lies in [0, 1). */
  lemma {:induction false} LinearPosition(k: nat, f: nat)
    requires f > 0
    ensures var position := (2 * k) as real / (2 * f) as real;
            position.Floor == k / f &&
            position - (k / f) as real == (k % f) as real / f as real &&
            0.0 <= (k % f) as real / f as real < 1.0
  {
    var q, r := k / f, k % f;
    assert k == q * f + r && 0 <= r < f;
    var fr := f as real;
    assert (2 * k) as real / (2 * f) as real == (k as real) / fr;
    assert (k as real) == (q as real) * fr + (r as real);
    assert (k as real) / fr == (q as real) + (r as real) / fr;
    assert 0.0 <= (r as real) / fr < 1.0;
  }

  /** Bounds on the quotient that selects the base input pair. */
  lemma {:induction false} QuotientBounds(k: nat, f: nat, n: nat)
    requires f > 0 && k < n * f
    ensures k / f < n
    ensures k / f >= n - 1 <==> k >= (n - 1) * f
  {
    var q := k / f;
    assert q * f <= k < q * f + f;
    SignTimes(q - n, f);
    assert (q - n) * f == q * f - n * f;
    SignTimes(q - (n - 1), f);
    assert (q - (n - 1)) * f == q * f - (n - 1) * f;
    SignTimes(q + 1 - (n - 1), f);
    assert (q + 1 - (n - 1)) * f == q * f + f - (n - 1) * f;
  }

  /** The sign of a product with a positive factor is the sign of the other. */
  lemma SignTimes(d: int, f: int)
    requires f > 0
    ensures d > 0 ==> d * f > 0
    ensures d == 0 ==> d * f == 0
    ensures d < 0 ==> d * f < 0
  {
  }

  lemma MulStrict(a: int, b: int, f: int)
    requires f > 0
    ensures a < b <==> a * f < b * f
  {
    SignTimes(b - a, f);
    assert (b - a) * f == b * f - a * f;
  }

  lemma NonPositiveProduct(n: nat, step: int)
    requires step <= 0
    ensures n * step <= 0
  {
  }

  lemma {:induction false} DivOfMultiple(f: nat, b: nat)
    requires b > 0
    ensures (f * b) / b == f
  {
    var q, r := (f * b) / b, (f * b) % b;
    assert f * b == q * b + r && 0 <= r < b;
    SignTimes(f - q, b);
    assert (f - q) * b == r;
    SignTimes(f - q - 1, b);
    assert (f - q - 1) * b == r - b;
  }

  /** A pair whose next read index is past the end of the input is NaN:
      `undefined * fraction` is NaN even when the fraction is 0. */
  lemma LinearOverrunIsNaN(input: seq<Sample>, output: seq<Sample>, j: int)
    requires 0 <= j < |output|
    requires var f := Interpolation(|input|, |output|);
             f > 0 && 2 * ((j / 2) / f) + 2 >= |input|
    ensures LinearOut(input, output)[j] == NaN
  {
    var f := Interpolation(|input|, |output|);
    var i := 2 * ((j / 2) / f);
    var fraction := ((j / 2) % f) as real / f as real;
    assert At(input, i + 2) == NaN && At(input, i + 3) == NaN;
    assert Times(At(input, i + 2), Num(fraction)) == NaN;
    assert Times(At(input, i + 3), Num(fraction)) == NaN;
    assert LinearOut(input, output)[j] == LinearAt(input, output, j);
  }

  /** When the output is a whole multiple f of an even input, the base
      read index of every output pair is inside the input, and the next
      read index overruns exactly for the last f output pairs, whose
      values are NaN. */
  lemma LinearReads(input: seq<Sample>, output: seq<Sample>, f: nat, j: int)
    requires f > 0 && |input| > 0 && |input| % 2 == 0
    requires |output| == f * |input|
    requires 0 <= j < |output|
    ensures Interpolation(|input|, |output|) == f
    ensures var i := 2 * ((j / 2) / f);
            i + 1 < |input| &&
            (i + 2 >= |input| <==> j / 2 >= (|input| / 2 - 1) * f) &&
            (i + 2 >= |input| ==> LinearOut(input, output)[j] == NaN)
  {
    var n := |input| / 2;
    var k := j / 2;
    DivOfMultiple(f, |input|);
    var x := n * f;
    assert |output| == 2 * x by {
      assert f * |input| == f * (2 * n) == 2 * (n * f);
    }
    assert k < x;
    QuotientBounds(k, f, n);
    if 2 * (k / f) + 2 >= |input| {
      LinearOverrunIsNaN(input, output, j);
    }
  }

  /** With factor 1 the output equals a numeric input everywhere except
      the final pair, which reads past the end and is NaN. */
  lemma LinearFactorOne(input: seq<Sample>, output: seq<Sample>, j: int)
    requires |output| == |input| && |input| >= 2 && |input| % 2 == 0
    requires AllNum(input)
    requires 0 <= j < |input|
    ensures j < |input| - 2 ==> LinearOut(input, output)[j] == input[j]
    ensures j >= |input| - 2 ==> LinearOut(input, output)[j] == NaN
  {
    assert Interpolation(|input|, |output|) == 1;
    assert (j / 2) / 1 == j / 2 && (j / 2) % 1 == 0;
  }

  // ---------------------------------------------------------------------
  // Re-running a block over unchanged inputs

  /** A second run over unchanged inputs rewrites the same values, so each
      closed form is idempotent in the output buffer. */
  lemma ToComplexIdempotent(input: seq<Sample>, output: seq<Sample>)
    ensures ToComplexOut(input, ToComplexOut(input, output)) == ToComplexOut(input, output)
  {
  }

  lemma AMModulatorIdempotent(input: seq<Sample>, output: seq<Sample>)
    ensures AMModulatorOut(input, AMModulatorOut(input, output)) == AMModulatorOut(input, output)
  {
  }

  lemma FMModulatorIdempotent(input: seq<Sample>, output: seq<Sample>, deviation: real, m: Trig)
    requires FMShape(|input|, |output|)
    ensures FMModulatorOut(input, FMModulatorOut(input, output, deviation, m), deviation, m)
            == FMModulatorOut(input, output, deviation, m)
  {
  }

  lemma AddIdempotent(a: seq<Sample>, b: seq<Sample>, output: seq<Sample>)
    ensures AddOut(a, b, AddOut(a, b, output)) == AddOut(a, b, output)
  {
  }

  lemma MultiplyIdempotent(a: seq<Sample>, b: seq<Sample>, output: seq<Sample>)
    ensures MultiplyOut(a, b, MultiplyOut(a, b, output)) == MultiplyOut(a, b, output)
  {
  }

  lemma FirIdempotent(input: seq<Sample>, output: seq<Sample>, step: int, delay: int,
                      taps: seq<real>)
    ensures FirOut(input, FirOut(input, output, step, delay, taps), step, delay, taps)
            == FirOut(input, output, step, delay, taps)
  {
    FirOverwritesAll(input, FirOut(input, output, step, delay, taps), output, step, delay, taps);
  }

  lemma SiggenIdempotent(output: seq<Sample>, radiansPerSample: real, m: Trig)
    ensures SiggenOut(SiggenOut(output, radiansPerSample, m), radiansPerSample, m)
            == SiggenOut(output, radiansPerSample, m)
  {
  }

  lemma LinearIdempotent(input: seq<Sample>, output: seq<Sample>)
    ensures LinearOut(input, LinearOut(input, output)) == LinearOut(input, output)
  {
  }

  lemma RotatorIdempotent(input: seq<Sample>, output: seq<Sample>, radiansPerSample: real, m: Trig)
    ensures RotatorOut(input, RotatorOut(input, output, radiansPerSample, m), radiansPerSample, m)
            == RotatorOut(input, output, radiansPerSample, m)
  {
  }
}
