/** The block library of dsp.js.

    Each JavaScript constructor takes its input and output Float32Arrays,
    precomputes its loop limits from their lengths, and returns a `run`
    closure.  Here each block is a class whose constant fields are the
    captured buffers, parameters and limits, whose constructor does the
    precomputation, and whose `Run` method is the closure.  Every `Run` is
    proved to leave its output equal to the closed form of module DspSpec
    over the inputs and the previous output.

    A JavaScript store to an index at or past the end of a typed array is
    silently dropped; the guarded stores below model that.  Each block
    requires its output buffer to be distinct from its inputs. */
module Dsp {
  import opened Samples
  import opened DspSpec

  /** dsp.js:21-29 */
  class ToComplex {
    const audioin: array<Sample>
    const iqout: array<Sample>
    const limit: nat

    predicate Valid() {
      audioin != iqout && limit == HalfLimit(audioin.Length, iqout.Length)
    }

    constructor (audioin: array<Sample>, iqout: array<Sample>)
      requires audioin != iqout
      ensures this.audioin == audioin && this.iqout == iqout && Valid()
    {
      this.audioin := audioin;
      this.iqout := iqout;
      limit := HalfLimit(audioin.Length, iqout.Length);
    }

    method Run()
      requires Valid()
      modifies iqout
      ensures iqout[..] == ToComplexOut(old(audioin[..]), old(iqout[..]))
    {
      ghost var s, o := audioin[..], iqout[..];
      var i, j := 0, 0;
      while i < limit
        invariant 0 <= i <= limit && j == 2 * i
        invariant forall p :: 0 <= p < iqout.Length ==>
          iqout[p] == if p < j then ToComplexAt(s, o, p) else o[p]
      {
        iqout[j] := audioin[i];
        if j + 1 < iqout.Length {
          iqout[j + 1] := Num(0.0);
        }
        i, j := i + 1, j + 2;
      }
      assert iqout[..] == ToComplexOut(s, o);
    }
  }

  /** dsp.js:32-40 */
  class AMModulator {
    const audioin: array<Sample>
    const iqout: array<Sample>
    const limit: nat

    predicate Valid() {
      audioin != iqout && limit == HalfLimit(audioin.Length, iqout.Length)
    }

    constructor (audioin: array<Sample>, iqout: array<Sample>)
      requires audioin != iqout
      ensures this.audioin == audioin && this.iqout == iqout && Valid()
    {
      this.audioin := audioin;
      this.iqout := iqout;
      limit := HalfLimit(audioin.Length, iqout.Length);
    }

    method Run()
      requires Valid()
      modifies iqout
      ensures iqout[..] == AMModulatorOut(old(audioin[..]), old(iqout[..]))
    {
      ghost var s, o := audioin[..], iqout[..];
      var i, j := 0, 0;
      while i < limit
        invariant 0 <= i <= limit && j == 2 * i
        invariant forall p :: 0 <= p < iqout.Length ==>
          iqout[p] == if p < j then AMModulatorAt(s, o, p) else o[p]
      {
        iqout[j] := Plus(Num(1.0), audioin[i]);
        if j + 1 < iqout.Length {
          iqout[j + 1] := Num(0.0);
        }
        i, j := i + 1, j + 2;
      }
      assert iqout[..] == AMModulatorOut(s, o);
    }
  }

  /** dsp.js:43-59 */
  class FMModulator {
    const audioin: array<Sample>
    const iqout: array<Sample>
    const deviation: real
    const limit: nat

    predicate Valid() {
      audioin != iqout && FMShape(audioin.Length, iqout.Length) &&
      limit == FMLimit(audioin.Length, iqout.Length)
    }

    constructor (audioin: array<Sample>, iqout: array<Sample>, deviation: real)
      requires audioin != iqout && FMShape(audioin.Length, iqout.Length)
      ensures this.audioin == audioin && this.iqout == iqout && this.deviation == deviation
      ensures Valid()
    {
      this.audioin := audioin;
      this.iqout := iqout;
      this.deviation := deviation;
      limit := FMLimit(audioin.Length, iqout.Length);
    }

    method Run(m: Trig)
      requires Valid()
      modifies iqout
      ensures iqout[..] == FMModulatorOut(old(audioin[..]), old(iqout[..]), deviation, m)
    {
      ghost var s, o := audioin[..], iqout[..];
      RunForward(m, s, o);
      RunBackward(m, s, o);
      assert iqout[..] == FMModulatorOut(s, o, deviation, m);
    }

    /** dsp.js:46-51: the pairs from the midpoint on, with the phase
        accumulated forward from 0. */
    method RunForward(m: Trig, ghost s: seq<Sample>, ghost o: seq<Sample>)
      requires Valid() && s == audioin[..] && o == iqout[..]
      modifies iqout
      ensures forall p :: 0 <= p < iqout.Length ==>
        iqout[p] == if limit <= p < 2 * limit then FMModulatorAt(s, o, deviation, m, p) else o[p]
    {
      var phase := Num(0.0);
      var i: int, j: int := limit / 2, limit;
      while i < limit
        invariant limit / 2 <= i <= limit && j == 2 * i
        invariant phase == Fwd(s, limit / 2, i - 1, deviation)
        invariant forall p :: 0 <= p < iqout.Length ==>
          iqout[p] == if limit <= p < j then FMModulatorAt(s, o, deviation, m, p) else o[p]
      {
        phase := Plus(phase, Times(audioin[i], Num(deviation)));
        EmitPair(m, s, o, i, phase);
        i, j := i + 1, j + 2;
      }
    }

    /** dsp.js:52-57: the pairs before the midpoint, with the phase
        accumulated backward from 0. */
    method RunBackward(m: Trig, ghost s: seq<Sample>, ghost o: seq<Sample>)
      requires Valid() && s == audioin[..] && |o| == iqout.Length
      requires forall p :: 0 <= p < iqout.Length ==>
        iqout[p] == if limit <= p < 2 * limit then FMModulatorAt(s, o, deviation, m, p) else o[p]
      modifies iqout
      ensures forall p :: 0 <= p < iqout.Length ==>
        iqout[p] == if p < 2 * limit then FMModulatorAt(s, o, deviation, m, p) else o[p]
    {
      var phase := Num(0.0);
      var i: int, j: int := limit / 2 - 1, limit - 2;
      while i >= 0
        invariant -1 <= i < limit / 2 && j == 2 * i
        invariant phase == Bwd(s, limit / 2, i + 1, deviation)
        invariant forall p :: 0 <= p < iqout.Length ==>
          iqout[p] == if j + 2 <= p < 2 * limit then FMModulatorAt(s, o, deviation, m, p) else o[p]
      {
        phase := Minus(phase, Times(audioin[i], Num(deviation)));
        EmitPair(m, s, o, i, phase);
        i, j := i - 1, j - 2;
      }
    }

    /** dsp.js:50 and 56: pair k stored as the cosine and sine of its phase. */
    method EmitPair(m: Trig, ghost s: seq<Sample>, ghost o: seq<Sample>, k: nat, phase: Sample)
      requires Valid() && s == audioin[..] && |o| == iqout.Length
      requires k < limit && phase == FMPhase(s, limit, k, deviation)
      modifies iqout
      ensures iqout[2 * k] == FMModulatorAt(s, o, deviation, m, 2 * k)
      ensures iqout[2 * k + 1] == FMModulatorAt(s, o, deviation, m, 2 * k + 1)
      ensures forall p :: 0 <= p < iqout.Length && p != 2 * k && p != 2 * k + 1 ==>
        iqout[p] == old(iqout[p])
    {
      FMModulatorAtPair(s, o, deviation, m, k);
      iqout[2 * k] := LiftCos(m, phase);
      iqout[2 * k + 1] := LiftSin(m, phase);
    }
  }

  /** dsp.js:62-84 */
  class FIRFilter {
    const in1: array<Sample>
    const out: array<Sample>
    const step: int
    const delay: int
    const taps: seq<real>
    const ntaps: nat
    const valdelay: int
    const start: int
    const limit: int
    const end: nat

    predicate Valid() {
      in1 != out && ntaps == |taps| && valdelay == delay * step &&
      start == FirStart(out.Length, valdelay) &&
      limit == FirLimit(in1.Length, out.Length, ntaps, valdelay) &&
      end == out.Length
    }

    constructor (in1: array<Sample>, out: array<Sample>, step: int, delay: int, taps: seq<real>)
      requires in1 != out
      ensures this.in1 == in1 && this.out == out && this.step == step
      ensures this.delay == delay && this.taps == taps
      ensures Valid()
    {
      this.in1 := in1;
      this.out := out;
      this.step := step;
      this.delay := delay;
      this.taps := taps;
      ntaps := |taps|;
      valdelay := delay * step;
      start := FirStart(out.Length, delay * step);
      limit := FirLimit(in1.Length, out.Length, |taps|, delay * step);
      end := out.Length;
    }

    /** The accumulator loop of one output position: the taps are read at
        `i + valdelay + j` for j = 0, step, 2*step, ... below ntaps*step. */
    method Accumulate(i: int) returns (accum: Sample)
      requires Valid()
      ensures accum == FirSum(in1[..], i + valdelay, step, taps, FirIterations(ntaps, step))
    {
      accum := Num(0.0);
      var j := 0;
      ghost var k: nat := 0;
      if step <= 0 {
        NonPositiveProduct(ntaps, step);
      }
      while j < ntaps * step
        invariant k <= FirIterations(ntaps, step) && j == k * step
        invariant step <= 0 ==> k == 0 && ntaps * step <= 0
        invariant accum == FirSum(in1[..], i + valdelay, step, taps, k)
        decreases ntaps * step - j
      {
        assert step > 0;
        MulStrict(k, ntaps, step);
        DivOfMultiple(k, step);
        accum := Plus(accum, Times(Get(in1, i + valdelay + j), Num(taps[j / step])));
        j, k := j + step, k + 1;
      }
      if step > 0 {
        MulStrict(k, ntaps, step);
      }
    }

    method Run()
      requires Valid()
      modifies out
      ensures out[..] == FirOut(old(in1[..]), old(out[..]), step, delay, taps)
    {
      ghost var s, o := in1[..], out[..];
      var i := 0;
      while i < start
        invariant 0 <= i <= start
        invariant forall p :: 0 <= p < out.Length ==>
          out[p] == if p < i then FirAt(s, o, step, delay, taps, p) else o[p]
      {
        out[i] := Num(0.0);
        i := i + 1;
      }
      while i < limit
        invariant start <= i && (i <= limit || i == start)
        invariant forall p :: 0 <= p < out.Length ==>
          out[p] == if p < i then FirAt(s, o, step, delay, taps, p) else o[p]
      {
        var accum := Accumulate(i);
        out[i] := accum;
        i := i + 1;
      }
      while i < end
        invariant Max(start, limit) <= i && (i <= end || i == Max(start, limit))
        invariant forall p :: 0 <= p < out.Length ==>
          out[p] == if p < i then FirAt(s, o, step, delay, taps, p) else o[p]
      {
        out[i] := Num(0.0);
        i := i + 1;
      }
      assert out[..] == FirOut(s, o, step, delay, taps);
    }
  }

  /** dsp.js:87-94 */
  class Add {
    const in1: array<Sample>
    const in2: array<Sample>
    const out: array<Sample>
    const limit: nat

    predicate Valid() {
      in1 != out && in2 != out && limit == Min3(in1.Length, in2.Length, out.Length)
    }

    constructor (in1: array<Sample>, in2: array<Sample>, out: array<Sample>)
      requires in1 != out && in2 != out
      ensures this.in1 == in1 && this.in2 == in2 && this.out == out && Valid()
    {
      this.in1 := in1;
      this.in2 := in2;
      this.out := out;
      limit := Min3(in1.Length, in2.Length, out.Length);
    }

    method Run()
      requires Valid()
      modifies out
      ensures out[..] == AddOut(old(in1[..]), old(in2[..]), old(out[..]))
    {
      ghost var a, b, o := in1[..], in2[..], out[..];
      var i := 0;
      while i < limit
        invariant 0 <= i <= limit
        invariant forall p :: 0 <= p < out.Length ==>
          out[p] == if p < i then AddAt(a, b, o, p) else o[p]
      {
        out[i] := Plus(in1[i], in2[i]);
        i := i + 1;
      }
      assert out[..] == AddOut(a, b, o);
    }
  }

  /** dsp.js:97-105 */
  class Multiply {
    const iqin1: array<Sample>
    const iqin2: array<Sample>
    const iqout: array<Sample>
    const limit: nat

    predicate Valid() {
      iqin1 != iqout && iqin2 != iqout && limit == Min3(iqin1.Length, iqin2.Length, iqout.Length)
    }

    constructor (iqin1: array<Sample>, iqin2: array<Sample>, iqout: array<Sample>)
      requires iqin1 != iqout && iqin2 != iqout
      ensures this.iqin1 == iqin1 && this.iqin2 == iqin2 && this.iqout == iqout && Valid()
    {
      this.iqin1 := iqin1;
      this.iqin2 := iqin2;
      this.iqout := iqout;
      limit := Min3(iqin1.Length, iqin2.Length, iqout.Length);
    }

    method Run()
      requires Valid()
      modifies iqout
      ensures iqout[..] == MultiplyOut(old(iqin1[..]), old(iqin2[..]), old(iqout[..]))
    {
      ghost var a, b, o := iqin1[..], iqin2[..], iqout[..];
      var i := 0;
      while i < limit
        invariant 0 <= i && i % 2 == 0 && (i <= limit || i == limit + 1)
        invariant forall p :: 0 <= p < iqout.Length ==>
          iqout[p] == if p < i then MultiplyAt(a, b, o, p) else o[p]
      {
        iqout[i] := Minus(Times(iqin1[i], iqin2[i]), Times(Get(iqin1, i + 1), Get(iqin2, i + 1)));
        if i + 1 < iqout.Length {
          iqout[i + 1] := Plus(Times(Get(iqin1, i + 1), iqin2[i]), Times(iqin1[i], Get(iqin2, i + 1)));
        }
        i := i + 2;
      }
      assert iqout[..] == MultiplyOut(a, b, o);
    }
  }

  /** dsp.js:108-121 */
  class Rotator {
    const iqin: array<Sample>
    const iqout: array<Sample>
    const radiansPerSample: real
    const limit: nat

    predicate Valid() {
      iqin != iqout && limit == Min(iqin.Length, iqout.Length)
    }

    constructor (iqin: array<Sample>, iqout: array<Sample>, radiansPerSample: real)
      requires iqin != iqout
      ensures this.iqin == iqin && this.iqout == iqout
      ensures this.radiansPerSample == radiansPerSample && Valid()
    {
      this.iqin := iqin;
      this.iqout := iqout;
      this.radiansPerSample := radiansPerSample;
      limit := Min(iqin.Length, iqout.Length);
    }

    method Run(m: Trig)
      requires Valid()
      modifies iqout
      ensures iqout[..] == RotatorOut(old(iqin[..]), old(iqout[..]), radiansPerSample, m)
    {
      ghost var x, o := iqin[..], iqout[..];
      var phase := 0.0;
      var i := 0;
      while i < limit
        invariant 0 <= i && i % 2 == 0 && (i <= limit || i == limit + 1)
        invariant phase == Phase(i / 2, radiansPerSample)
        invariant forall p :: 0 <= p < iqout.Length ==>
          iqout[p] == if p < i then RotatorAt(x, o, radiansPerSample, m, p) else o[p]
      {
        var s := m.sin(phase);
        var c := m.cos(phase);
        iqout[i] := Minus(Times(Num(c), iqin[i]), Times(Num(s), Get(iqin, i + 1)));
        if i + 1 < iqout.Length {
          iqout[i + 1] := Plus(Times(Num(s), iqin[i]), Times(Num(c), Get(iqin, i + 1)));
        }
        phase := phase + radiansPerSample;
        i := i + 2;
      }
      assert iqout[..] == RotatorOut(x, o, radiansPerSample, m);
    }
  }

  /** dsp.js:124-136.  The frequency callback reads host state; it is
      modelled as a function of the tick (the frame) at which it is called. */
  class Siggen {
    const iqout: array<Sample>
    const radiansPerSampleFn: nat -> real
    const limit: nat

    predicate Valid() {
      limit == iqout.Length
    }

    constructor (iqout: array<Sample>, radiansPerSampleFn: nat -> real)
      ensures this.iqout == iqout && this.radiansPerSampleFn == radiansPerSampleFn && Valid()
    {
      this.iqout := iqout;
      this.radiansPerSampleFn := radiansPerSampleFn;
      limit := iqout.Length;
    }

    /** One run asks the callback once, at the start, and uses its answer
        for every sample. */
    method Run(m: Trig, tick: nat) returns (radiansPerSample: real)
      requires Valid()
      modifies iqout
      ensures radiansPerSample == radiansPerSampleFn(tick)
      ensures iqout[..] == SiggenOut(old(iqout[..]), radiansPerSample, m)
    {
      ghost var o := iqout[..];
      var phase := 0.0;
      radiansPerSample := radiansPerSampleFn(tick);
      var i := 0;
      while i < limit
        invariant 0 <= i && i % 2 == 0 && (i <= limit || i == limit + 1)
        invariant phase == Phase(i / 2, radiansPerSample)
        invariant forall p :: 0 <= p < iqout.Length ==>
          iqout[p] == if p < i then SiggenAt(o, radiansPerSample, m, p) else o[p]
      {
        iqout[i] := Num(m.cos(phase));
        if i + 1 < iqout.Length {
          iqout[i + 1] := Num(m.sin(phase));
        }
        phase := phase + radiansPerSample;
        i := i + 2;
      }
      assert iqout[..] == SiggenOut(o, radiansPerSample, m);
    }
  }

  /** An output buffer filled with `target` below `j` and still holding its
      previous contents `o` from `j` on. */
  ghost predicate FilledTo(a: seq<Sample>, j: int, target: seq<Sample>, o: seq<Sample>) {
    |a| == |o| == |target| &&
    forall p :: 0 <= p < |a| ==> a[p] == if p < j then target[p] else o[p]
  }

  /** Storing the pair at j extends the filled prefix by two. */
  lemma FillPair(a: seq<Sample>, j: nat, target: seq<Sample>, o: seq<Sample>)
    requires FilledTo(a, j, target, o) && j < |a|
    ensures j + 1 < |a| ==> FilledTo(a[j := target[j]][j + 1 := target[j + 1]], j + 2, target, o)
    ensures j + 1 >= |a| ==> FilledTo(a[j := target[j]], j + 2, target, o)
  {
  }

  /** Once the filled prefix covers the buffer, the buffer is the target. */
  lemma FilledAll(a: seq<Sample>, j: int, target: seq<Sample>, o: seq<Sample>)
    requires FilledTo(a, j, target, o) && j >= |a|
    ensures a == target
  {
    assert forall p :: 0 <= p < |a| ==> a[p] == target[p];
  }

  /** dsp.js:139-153 */
  class LinearInterpolator {
    const iqin: array<Sample>
    const iqout: array<Sample>
    const interpolation: nat
    const limit: nat

    predicate Valid() {
      iqin != iqout && interpolation == Interpolation(iqin.Length, iqout.Length) &&
      limit == iqout.Length
    }

    constructor (iqin: array<Sample>, iqout: array<Sample>)
      requires iqin != iqout
      ensures this.iqin == iqin && this.iqout == iqout && Valid()
    {
      this.iqin := iqin;
      this.iqout := iqout;
      interpolation := Interpolation(iqin.Length, iqout.Length);
      limit := iqout.Length;
    }

    /** The values stored at j and j+1 for even j. */
    method Interpolate(j: nat, ghost o: seq<Sample>) returns (re: Sample, im: Sample)
      requires Valid() && j % 2 == 0 && j < limit && |o| == limit
      ensures re == LinearOut(iqin[..], o)[j]
      ensures j + 1 < |o| ==> im == LinearOut(iqin[..], o)[j + 1]
    {
      if interpolation == 0 {
        // An empty input makes the factor Infinity, so position, index and
        // fraction are 0, and every read (iqin[0] onwards) is undefined.  A
        // shorter output makes the factor 0, so position is NaN or Infinity
        // and so is the index read.  Either way every value stored is NaN.
        re, im := NaN, NaN;
      } else {
        var position := (j as real) / ((interpolation * 2) as real);
        var index := position.Floor;
        var fraction := position - (index as real);
        var complement := 1.0 - fraction;
        LinearPosition(j / 2, interpolation);
        assert j == 2 * (j / 2);
        var i := index * 2;
        re := Plus(Times(Get(iqin, i), Num(complement)), Times(Get(iqin, i + 2), Num(fraction)));
        im := Plus(Times(Get(iqin, i + 1), Num(complement)), Times(Get(iqin, i + 3), Num(fraction)));
        assert (j + 1) / 2 == j / 2;
      }
    }

    method Run()
      requires Valid()
      modifies iqout
      ensures iqout[..] == LinearOut(old(iqin[..]), old(iqout[..]))
    {
      ghost var x, o := iqin[..], iqout[..];
      ghost var target := LinearOut(x, o);
      var j := 0;
      while j < limit
        invariant 0 <= j <= limit + 1 && j % 2 == 0
        invariant iqin[..] == x
        invariant FilledTo(iqout[..], j, target, o)
      {
        ghost var before := iqout[..];
        Store(j, o, target);
        FillPair(before, j, target, o);
        j := j + 2;
      }
      FilledAll(iqout[..], j, target, o);
    }

    /** dsp.js:149-150: the pair at j; a write past the end of a typed array
        is dropped, so the second value is stored only when it fits. */
    method Store(j: nat, ghost o: seq<Sample>, ghost target: seq<Sample>)
      requires Valid() && j % 2 == 0 && j < limit && |o| == limit
      requires target == LinearOut(iqin[..], o)
      modifies iqout
      ensures j + 1 < limit ==> iqout[..] == old(iqout[..])[j := target[j]][j + 1 := target[j + 1]]
      ensures j + 1 >= limit ==> iqout[..] == old(iqout[..])[j := target[j]]
    {
      var re, im := Interpolate(j, o);
      iqout[j] := re;
      if j + 1 < iqout.Length {
        iqout[j + 1] := im;
      }
    }
  }
}
