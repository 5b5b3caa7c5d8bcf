/** Sample values as stored in a Float32Array, and the arithmetic the DSP
    blocks apply to them.

    A JavaScript read past either end of a typed array yields `undefined`,
    and any arithmetic on `undefined` yields NaN, which is then stored.  A
    sample is therefore either a number or NaN; the lifted operators below
    propagate NaN exactly as JavaScript arithmetic does.  Numbers are exact
    reals: single-precision rounding is not modelled. */
module Samples {

  datatype Sample = Num(r: real) | NaN

  function Plus(a: Sample, b: Sample): Sample {
    if a.Num? && b.Num? then Num(a.r + b.r) else NaN
  }

  function Minus(a: Sample, b: Sample): Sample {
    if a.Num? && b.Num? then Num(a.r - b.r) else NaN
  }

  function Times(a: Sample, b: Sample): Sample {
    if a.Num? && b.Num? then Num(a.r * b.r) else NaN
  }

  /** `s[i]` followed by arithmetic: an index outside the array reads
      `undefined`, which becomes NaN. */
  function At(s: seq<Sample>, i: int): Sample {
    if 0 <= i < |s| then s[i] else NaN
  }

  /** The same read on an array. */
  function Get(a: array<Sample>, i: int): (x: Sample)
    reads a
    ensures x == At(a[..], i)
  {
    if 0 <= i < a.Length then a[i] else NaN
  }

  /** JavaScript's `x <= 0` on a Float32Array element (false for NaN). */
  predicate AtMostZero(x: Sample) {
    x.Num? && x.r <= 0.0
  }

  /** JavaScript's `x > t` on a Float32Array element (false for NaN). */
  predicate Above(x: Sample, t: real) {
    x.Num? && x.r > t
  }

  predicate AllNum(s: seq<Sample>) {
    forall k :: 0 <= k < |s| ==> s[k].Num?
  }

  /** Sum of the numeric samples s[lo..hi], added left to right. */
  function SumR(s: seq<Sample>, lo: int, hi: int): real
    requires 0 <= lo && hi <= |s|
    requires forall k :: lo <= k < hi ==> s[k].Num?
    decreases hi - lo
  {
    if hi <= lo then 0.0 else SumR(s, lo, hi - 1) + s[hi - 1].r
  }

  /** The host's `Math.cos` and `Math.sin`, which the model does not
      interpret.  The only facts used about them are their values at 0. */
  datatype Trig = Trig(cos: real -> real, sin: real -> real) {
    predicate Valid() {
      cos(0.0) == 1.0 && sin(0.0) == 0.0
    }
  }

  function LiftCos(m: Trig, phase: Sample): Sample {
    if phase.Num? then Num(m.cos(phase.r)) else NaN
  }

  function LiftSin(m: Trig, phase: Sample): Sample {
    if phase.Num? then Num(m.sin(phase.r)) else NaN
  }

  /** The phase after `k` steps of `phase += radiansPerSample` from 0,
      as the Rotator and Siggen loops accumulate it. */
  function Phase(k: nat, radiansPerSample: real): real {
    if k == 0 then 0.0 else Phase(k - 1, radiansPerSample) + radiansPerSample
  }

  /** Repeated addition of the step gives k times the step (exact reals). */
  lemma {:induction false} PhaseIsProduct(k: nat, radiansPerSample: real)
    ensures Phase(k, radiansPerSample) == (k as real) * radiansPerSample
  {
    if k > 0 {
      PhaseIsProduct(k - 1, radiansPerSample);
    }
  }

  function Min(a: int, b: int): int {
    if a <= b then a else b
  }

  function Max(a: int, b: int): int {
    if a <= b then b else a
  }

  function Min3(a: int, b: int, c: int): int {
    Min(Min(a, b), c)
  }
}
