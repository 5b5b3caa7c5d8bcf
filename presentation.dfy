/** The signal path of presentation-main.js: the two block graphs it wires
    up (presentation-main.js:79-118), and the per-frame update that captures
    audio, centres it on a rising zero crossing, runs the main graph and
    drives the `paused` / `leveltrigger` flags (presentation-main.js:691-736).

    Host input is passed in as parameters: the analyser's time-domain
    capture, whether the slide director is at the demodulation step, the
    value the demodulator's frequency callback returns, and `Math.cos` /
    `Math.sin`. */
module PresentationMain {
  import opened Samples
  import opened Dsp
  import opened DspGraph

  /** presentation-main.js:49, 52 */
  const FftSize: nat := 2048
  const SampleCount: nat := 128
  /** presentation-main.js:80-81 */
  const InterpolationFactor: nat := 5
  const ChFreq: real := 0.30
  /** presentation-main.js:95 */
  const FmDeviation: real := 0.75

  /** presentation-main.js:73-74 */
  const FilterOuterCoeff: real := 1.0 / 3.0
  const FilterInnerCoeff: real := 2.0 / 3.0

  /** presentation-main.js:76-77: a 27-tap low-pass design. */
  const AudioLowpass: seq<real> := [
    -0.00114539940841496, -0.0007444394868798554, 0.00002997766569023952,
    0.0019656415097415447, 0.005893126595765352, 0.01247603353112936,
    0.02201135642826557, 0.034287191927433014, 0.04853496327996254,
    0.06349427998065948, 0.07758451253175735, 0.0891534835100174,
    0.09675595909357071, 0.09940661489963531, 0.09675595909357071,
    0.0891534835100174, 0.07758451253175735, 0.06349427998065948,
    0.04853496327996254, 0.034287191927433014, 0.02201135642826557,
    0.01247603353112936, 0.005893126595765352, 0.0019656415097415447,
    0.00002997766569023952, -0.0007444394868798554, -0.00114539940841496]

  /** presentation-main.js:78: the matching 27-tap high-pass design. */
  const AudioHighpass: seq<real> := [
    0.0010463938815519214, 0.0006800920236855745, -0.00002738647162914276,
    -0.0017957363743335009, -0.005383739247918129, -0.011397636495530605,
    -0.020108748227357864, -0.03132349252700806, -0.04433972015976906,
    -0.05800599604845047, -0.07087830454111099, -0.08144728094339371,
    -0.08839261531829834, 0.9104118347167969, -0.08839261531829834,
    -0.08144728094339371, -0.07087830454111099, -0.05800599604845047,
    -0.04433972015976906, -0.03132349252700806, -0.020108748227357864,
    -0.011397636495530605, -0.005383739247918129, -0.0017957363743335009,
    -0.00002738647162914276, 0.0006800920236855745, 0.0010463938815519214]

  /** `-Math.floor(audio_lowpass.length / 2)` at presentation-main.js:103-104. */
  const FilterDelay: int := -(|AudioLowpass| / 2)

  /** Half the display buffer, and the last index the trigger search may
      stop at (presentation-main.js:710-711). */
  const Half: nat := SampleCount / 2
  const TriggerLimit: nat := FftSize - Half - 1

  /** presentation-main.js:694, 697 */
  const Space: int := 0x20
  const KeyT: int := 84

  // ---------------------------------------------------------------------
  // Graph wiring

  /** `new Float32Array(n)`: a fresh buffer of n zeros, which is none of
      the buffers in `known`. */
  method ZeroBuffer(n: nat, ghost known: set<Buffer>) returns (a: array<Sample>)
    ensures fresh(a) && a.Length == n && a !in known
    ensures forall k :: 0 <= k < n ==> a[k] == Num(0.0)
  {
    a := new Sample[n](_ => Num(0.0));
  }

  /** The state of a block list under construction: `used` holds every
      buffer the list touches, `outs` exactly the buffers it writes, the
      `sources` are read-only, and of the buffers in `avoid` the list
      touches at most the sources. */
  ghost predicate Wiring(bs: seq<Block>, used: set<Buffer>, outs: set<Buffer>,
                         sources: set<Buffer>, avoid: set<Buffer>)
  {
    Wired(bs) && AllBuffers(bs) <= used && Outputs(bs) == outs && outs <= used &&
    sources <= used && sources !! outs && used * avoid <= sources
  }

  /** Appending a valid block that reads buffers already in use and writes
      a new buffer outside `avoid`. */
  lemma WiringStep(bs: seq<Block>, b: Block, used: set<Buffer>, outs: set<Buffer>,
                   sources: set<Buffer>, avoid: set<Buffer>)
    requires Wiring(bs, used, outs, sources, avoid)
    requires b.Valid() && b.Inputs() <= used && b.Output() !in used + avoid
    ensures Wiring(bs + [b], used + {b.Output()}, outs + {b.Output()}, sources, avoid)
    ensures AllBuffers(bs) <= AllBuffers(bs + [b])
  {
    WiredAppend(bs, b, used, outs);
  }

  /** presentation-main.js:94-97: AM and FM modulation of the captured
      audio into `SampleCount` complex samples each, and linear
      interpolation of both to `InterpolationFactor` times as many. */
  predicate ModulationWiring(bs: seq<Block>, audioarray: Buffer) {
    var hn := InterpolationFactor * SampleCount * 2;
    |bs| >= 4 &&
    bs[0].AMModulatorBlock? && bs[0].am.audioin == audioarray &&
    bs[0].Output().Length == SampleCount * 2 &&
    bs[1].FMModulatorBlock? && bs[1].fm.audioin == audioarray &&
    bs[1].fm.deviation == FmDeviation && bs[1].Output().Length == SampleCount * 2 &&
    bs[2].LinearInterpolatorBlock? && bs[2].interp.iqin == bs[0].Output() &&
    bs[2].Output().Length == hn &&
    bs[3].LinearInterpolatorBlock? && bs[3].interp.iqin == bs[1].Output() &&
    bs[3].Output().Length == hn
  }

  /** presentation-main.js:98-99, starting at position i: both interpolated
      signals shifted up by `ChFreq`. */
  predicate CarrierWiring(bs: seq<Block>, i: nat, hfambuf: Buffer, hffmbuf: Buffer) {
    var hn := InterpolationFactor * SampleCount * 2;
    |bs| >= i + 2 &&
    bs[i].RotatorBlock? && bs[i].rot.iqin == hfambuf &&
    bs[i].rot.radiansPerSample == ChFreq && bs[i].Output().Length == hn &&
    bs[i + 1].RotatorBlock? && bs[i + 1].rot.iqin == hffmbuf &&
    bs[i + 1].rot.radiansPerSample == ChFreq && bs[i + 1].Output().Length == hn
  }

  /** presentation-main.js:100-101, starting at position i: a demodulation
      carrier whose frequency the callback supplies, and the FM carrier
      mixed with it. */
  ghost predicate DemodWiring(bs: seq<Block>, i: nat, fmout: Buffer,
                              demodFrequency: nat -> real)
  {
    var hn := InterpolationFactor * SampleCount * 2;
    |bs| >= i + 2 &&
    bs[i].SiggenBlock? && bs[i].gen.radiansPerSampleFn == demodFrequency &&
    bs[i].Output().Length == hn &&
    bs[i + 1].MultiplyBlock? && bs[i + 1].mul.iqin1 == fmout &&
    bs[i + 1].mul.iqin2 == bs[i].Output() && bs[i + 1].Output().Length == hn
  }

  /** presentation-main.js:102-104, starting at position i: the audio as a
      complex signal, and its low- and high-pass filtered versions, both
      filters stepping over complex samples and centred on their taps. */
  predicate FilterWiring(bs: seq<Block>, i: nat, audioarray: Buffer) {
    |bs| >= i + 3 &&
    bs[i].ToComplexBlock? && bs[i].toComplex.audioin == audioarray &&
    bs[i].Output().Length == SampleCount * 2 &&
    bs[i + 1].FIRFilterBlock? && bs[i + 1].fir.in1 == bs[i].Output() &&
    bs[i + 1].fir.step == 2 && bs[i + 1].fir.delay == FilterDelay &&
    bs[i + 1].fir.taps == AudioLowpass && bs[i + 1].Output().Length == SampleCount * 2 &&
    bs[i + 2].FIRFilterBlock? && bs[i + 2].fir.in1 == bs[i].Output() &&
    bs[i + 2].fir.step == 2 && bs[i + 2].fir.delay == FilterDelay &&
    bs[i + 2].fir.taps == AudioHighpass && bs[i + 2].Output().Length == SampleCount * 2
  }

  /** The block list of graph `g` (presentation-main.js:93-105). */
  ghost predicate MainWiring(bs: seq<Block>, audioarray: Buffer, demodFrequency: nat -> real) {
    |bs| == 11 && ModulationWiring(bs, audioarray) &&
    CarrierWiring(bs, 4, bs[2].Output(), bs[3].Output()) &&
    DemodWiring(bs, 6, bs[5].Output(), demodFrequency) &&
    FilterWiring(bs, 8, audioarray)
  }

  /** The four stages, appended one after another, form graph `g`. */
  lemma MainShape(bs: seq<Block>, bs1: seq<Block>, bs2: seq<Block>, bs3: seq<Block>,
                  audioarray: Buffer, hfambuf: Buffer, hffmbuf: Buffer, fmout: Buffer,
                  demodFrequency: nat -> real)
    requires |bs| == 4 && ModulationWiring(bs, audioarray)
    requires hfambuf == bs[2].Output() && hffmbuf == bs[3].Output()
    requires |bs1| == 6 && bs1[..4] == bs && CarrierWiring(bs1, 4, hfambuf, hffmbuf)
    requires fmout == bs1[5].Output()
    requires |bs2| == 8 && bs2[..6] == bs1 && DemodWiring(bs2, 6, fmout, demodFrequency)
    requires |bs3| == 11 && bs3[..8] == bs2 && FilterWiring(bs3, 8, audioarray)
    ensures MainWiring(bs3, audioarray, demodFrequency)
  {
    assert forall k :: 0 <= k < 4 ==> bs3[k] == bs[k] by {
      forall k | 0 <= k < 4 ensures bs3[k] == bs[k] {
        assert bs3[k] == bs2[k] == bs1[k];
      }
    }
    assert bs3[4] == bs2[4] == bs1[4] && bs3[5] == bs2[5] == bs1[5];
    assert bs3[6] == bs2[6] && bs3[7] == bs2[7];
  }

  /** The complex-signal block and the two filters appended after it form
      the filter stage. */
  lemma FilterShape(bs: seq<Block>, c1: seq<Block>, c2: seq<Block>, cs: seq<Block>,
                    audioarray: Buffer)
    requires |c1| == |bs| + 1 && c1[..|bs|] == bs
    requires c1[|bs|].ToComplexBlock? && c1[|bs|].toComplex.audioin == audioarray
    requires c1[|bs|].Output().Length == SampleCount * 2
    requires |c2| == |c1| + 1 && c2[..|c1|] == c1
    requires c2[|c1|].FIRFilterBlock? && c2[|c1|].fir.in1 == c1[|bs|].Output()
    requires c2[|c1|].fir.step == 2 && c2[|c1|].fir.delay == FilterDelay
    requires c2[|c1|].fir.taps == AudioLowpass && c2[|c1|].Output().Length == SampleCount * 2
    requires |cs| == |c2| + 1 && cs[..|c2|] == c2
    requires cs[|c2|].FIRFilterBlock? && cs[|c2|].fir.in1 == c1[|bs|].Output()
    requires cs[|c2|].fir.step == 2 && cs[|c2|].fir.delay == FilterDelay
    requires cs[|c2|].fir.taps == AudioHighpass && cs[|c2|].Output().Length == SampleCount * 2
    ensures cs[..|bs|] == bs && FilterWiring(cs, |bs|, audioarray)
  {
    var i := |bs|;
    assert cs[i] == c2[i] == c1[i] && cs[i + 1] == c2[i + 1];
    assert cs[..i] == c2[..i] == c1[..i];
  }

  /** Appends `FIRFilter(in1, out, step, delay, taps)` over a new
      zero-filled output of n samples, as presentation-main.js:103-104
      and 116-117 do. */
  method AttachFir(bs: seq<Block>, in1: Buffer, n: nat, step: int, delay: int, taps: seq<real>,
                   ghost used: set<Buffer>, ghost outs: set<Buffer>,
                   ghost sources: set<Buffer>, ghost avoid: set<Buffer>)
    returns (cs: seq<Block>, ghost used': set<Buffer>, ghost outs': set<Buffer>)
    requires Wiring(bs, used, outs, sources, avoid) && in1 in used
    ensures Wiring(cs, used', outs', sources, avoid) && AllBuffers(bs) <= AllBuffers(cs)
    ensures |cs| == |bs| + 1 && cs[..|bs|] == bs
    ensures var b := cs[|bs|];
            b.FIRFilterBlock? && b.fir.in1 == in1 && b.fir.step == step &&
            b.fir.delay == delay && b.fir.taps == taps && b.Output().Length == n
    ensures fresh(cs[|bs|].Output()) && used' == used + {cs[|bs|].Output()}
  {
    var out := ZeroBuffer(n, used + avoid);
    var fir := new FIRFilter(in1, out, step, delay, taps);
    WiringStep(bs, FIRFilterBlock(fir), used, outs, sources, avoid);
    cs, used', outs' := bs + [FIRFilterBlock(fir)], used + {out}, outs + {out};
  }

  /** Appends `Siggen(out, radiansPerSampleFn)` over a new zero-filled
      output of n samples, as presentation-main.js:100 and 113-114 do. */
  method AttachSiggen(bs: seq<Block>, n: nat, radiansPerSampleFn: nat -> real,
                      ghost used: set<Buffer>, ghost outs: set<Buffer>,
                      ghost sources: set<Buffer>, ghost avoid: set<Buffer>)
    returns (cs: seq<Block>, out: Buffer, ghost used': set<Buffer>, ghost outs': set<Buffer>)
    requires Wiring(bs, used, outs, sources, avoid)
    ensures Wiring(cs, used', outs', sources, avoid) && AllBuffers(bs) <= AllBuffers(cs)
    ensures |cs| == |bs| + 1 && cs[..|bs|] == bs
    ensures cs[|bs|].SiggenBlock? && cs[|bs|].gen.radiansPerSampleFn == radiansPerSampleFn
    ensures out == cs[|bs|].Output() && out.Length == n
    ensures fresh(out) && used' == used + {out}
  {
    out := ZeroBuffer(n, used + avoid);
    var gen := new Siggen(out, radiansPerSampleFn);
    WiringStep(bs, SiggenBlock(gen), used, outs, sources, avoid);
    cs, used', outs' := bs + [SiggenBlock(gen)], used + {out}, outs + {out};
  }

  /** presentation-main.js:94-97: modulation and interpolation. */
  method WireModulation(audioarray: Buffer, ghost avoid: set<Buffer>)
    returns (bs: seq<Block>, hfambuf: Buffer, hffmbuf: Buffer,
             ghost used: set<Buffer>, ghost outs: set<Buffer>)
    requires audioarray.Length == SampleCount
    ensures Wiring(bs, used, outs, {audioarray}, avoid) && |bs| == 4
    ensures audioarray in AllBuffers(bs) && hfambuf in used && hffmbuf in used
    ensures ModulationWiring(bs, audioarray)
    ensures hfambuf == bs[2].Output() && hffmbuf == bs[3].Output()
  {
    var n := SampleCount * 2;
    var hn := InterpolationFactor * SampleCount * 2;
    bs, used, outs := [], {audioarray}, {};

    var modulatingam := ZeroBuffer(n, used + avoid);
    var am := new AMModulator(audioarray, modulatingam);
    WiringStep(bs, AMModulatorBlock(am), used, outs, {audioarray}, avoid);
    bs, used, outs := bs + [AMModulatorBlock(am)], used + {modulatingam}, outs + {modulatingam};
    assert audioarray in AllBuffers(bs);

    var modulatingfm := ZeroBuffer(n, used + avoid);
    var fm := new FMModulator(audioarray, modulatingfm, FmDeviation);
    WiringStep(bs, FMModulatorBlock(fm), used, outs, {audioarray}, avoid);
    bs, used, outs := bs + [FMModulatorBlock(fm)], used + {modulatingfm}, outs + {modulatingfm};

    hfambuf := ZeroBuffer(hn, used + avoid);
    var interpAm := new LinearInterpolator(modulatingam, hfambuf);
    WiringStep(bs, LinearInterpolatorBlock(interpAm), used, outs, {audioarray}, avoid);
    bs, used, outs := bs + [LinearInterpolatorBlock(interpAm)], used + {hfambuf}, outs + {hfambuf};

    hffmbuf := ZeroBuffer(hn, used + avoid);
    var interpFm := new LinearInterpolator(modulatingfm, hffmbuf);
    WiringStep(bs, LinearInterpolatorBlock(interpFm), used, outs, {audioarray}, avoid);
    bs, used, outs := bs + [LinearInterpolatorBlock(interpFm)], used + {hffmbuf}, outs + {hffmbuf};
  }

  /** presentation-main.js:98-99: the AM and FM carriers. */
  method WireCarriers(bs: seq<Block>, hfambuf: Buffer, hffmbuf: Buffer,
                      ghost used: set<Buffer>, ghost outs: set<Buffer>,
                      ghost sources: set<Buffer>, ghost avoid: set<Buffer>)
    returns (cs: seq<Block>, fmout: Buffer, ghost used': set<Buffer>, ghost outs': set<Buffer>)
    requires Wiring(bs, used, outs, sources, avoid) && hfambuf in used && hffmbuf in used
    ensures Wiring(cs, used', outs', sources, avoid) && |cs| == |bs| + 2
    ensures AllBuffers(bs) <= AllBuffers(cs) && fmout in used'
    ensures cs[..|bs|] == bs && CarrierWiring(cs, |bs|, hfambuf, hffmbuf)
    ensures fmout == cs[|bs| + 1].Output()
  {
    var hn := InterpolationFactor * SampleCount * 2;
    cs, used', outs' := bs, used, outs;

    var amout := ZeroBuffer(hn, used' + avoid);
    var rotAm := new Rotator(hfambuf, amout, ChFreq);
    WiringStep(cs, RotatorBlock(rotAm), used', outs', sources, avoid);
    cs, used', outs' := cs + [RotatorBlock(rotAm)], used' + {amout}, outs' + {amout};

    fmout := ZeroBuffer(hn, used' + avoid);
    var rotFm := new Rotator(hffmbuf, fmout, ChFreq);
    WiringStep(cs, RotatorBlock(rotFm), used', outs', sources, avoid);
    cs, used', outs' := cs + [RotatorBlock(rotFm)], used' + {fmout}, outs' + {fmout};
    assert cs == bs + [RotatorBlock(rotAm), RotatorBlock(rotFm)];
  }

  /** presentation-main.js:100-101: the demodulation carrier and the mixer. */
  method WireDemodulator(bs: seq<Block>, fmout: Buffer, demodFrequency: nat -> real,
                         ghost used: set<Buffer>, ghost outs: set<Buffer>,
                         ghost sources: set<Buffer>, ghost avoid: set<Buffer>)
    returns (cs: seq<Block>, ghost used': set<Buffer>, ghost outs': set<Buffer>)
    requires Wiring(bs, used, outs, sources, avoid) && fmout in used
    ensures Wiring(cs, used', outs', sources, avoid) && |cs| == |bs| + 2
    ensures AllBuffers(bs) <= AllBuffers(cs)
    ensures cs[..|bs|] == bs && DemodWiring(cs, |bs|, fmout, demodFrequency)
  {
    var hn := InterpolationFactor * SampleCount * 2;
    cs, used', outs' := bs, used, outs;

    var demodrot := ZeroBuffer(hn, used' + avoid);
    var demod := new Siggen(demodrot, demodFrequency);
    WiringStep(cs, SiggenBlock(demod), used', outs', sources, avoid);
    cs, used', outs' := cs + [SiggenBlock(demod)], used' + {demodrot}, outs' + {demodrot};

    var product := ZeroBuffer(hn, used' + avoid);
    var mix := new Multiply(fmout, demodrot, product);
    WiringStep(cs, MultiplyBlock(mix), used', outs', sources, avoid);
    cs, used', outs' := cs + [MultiplyBlock(mix)], used' + {product}, outs' + {product};
    assert cs == bs + [SiggenBlock(demod), MultiplyBlock(mix)];
  }

  /** presentation-main.js:102-104: the double-sideband signal and its
      low- and high-pass filtered versions. */
  method WireFilters(bs: seq<Block>, audioarray: Buffer, ghost used: set<Buffer>,
                     ghost outs: set<Buffer>, ghost sources: set<Buffer>,
                     ghost avoid: set<Buffer>)
    returns (cs: seq<Block>, ghost used': set<Buffer>, ghost outs': set<Buffer>)
    requires Wiring(bs, used, outs, sources, avoid) && audioarray in used
    ensures Wiring(cs, used', outs', sources, avoid) && |cs| == |bs| + 3
    ensures AllBuffers(bs) <= AllBuffers(cs)
    ensures cs[..|bs|] == bs && FilterWiring(cs, |bs|, audioarray)
  {
    var n := SampleCount * 2;
    cs, used', outs' := bs, used, outs;

    var dsbbuf := ZeroBuffer(n, used' + avoid);
    var dsb := new ToComplex(audioarray, dsbbuf);
    WiringStep(cs, ToComplexBlock(dsb), used', outs', sources, avoid);
    cs, used', outs' := cs + [ToComplexBlock(dsb)], used' + {dsbbuf}, outs' + {dsbbuf};
    assert cs == bs + [ToComplexBlock(dsb)];

    ghost var c1 := cs;
    cs, used', outs' := AttachFir(cs, dsbbuf, n, 2, FilterDelay, AudioLowpass,
                                  used', outs', sources, avoid);
    ghost var c2 := cs;
    cs, used', outs' := AttachFir(cs, dsbbuf, n, 2, FilterDelay, AudioHighpass,
                                  used', outs', sources, avoid);
    FilterShape(bs, c1, c2, cs, audioarray);
  }

  /** Graph `g` (presentation-main.js:93-105) over fresh zero-filled
      intermediate buffers.  Every buffer is written by one block only,
      before any block reads it, and the captured audio in `audioarray` is
      read but never written. */
  method BuildMainGraph(audioarray: Buffer, demodFrequency: nat -> real,
                        ghost avoid: set<Buffer>)
    returns (g: Graph)
    requires audioarray.Length == SampleCount
    ensures g.Valid() && MainWiring(g.blocks, audioarray, demodFrequency)
    ensures ProducerBeforeConsumer(g.blocks) && SingleWriter(g.blocks)
    ensures audioarray in g.Bufs() && audioarray !in Outputs(g.blocks)
    ensures forall a :: a in avoid && a in g.Bufs() ==> a == audioarray
  {
    var bs, hfambuf, hffmbuf, used, outs := WireModulation(audioarray, avoid);
    ghost var sources := {audioarray};
    var bs1, fmout, used1, outs1 := WireCarriers(bs, hfambuf, hffmbuf, used, outs, sources, avoid);
    var bs2, used2, outs2 := WireDemodulator(bs1, fmout, demodFrequency, used1, outs1,
                                             sources, avoid);
    var bs3, used3, outs3 := WireFilters(bs2, audioarray, used2, outs2, sources, avoid);
    MainShape(bs, bs1, bs2, bs3, audioarray, hfambuf, hffmbuf, fmout, demodFrequency);
    WiredIsOrdered(bs3);
    forall a | a in avoid && a in AllBuffers(bs3)
      ensures a == audioarray
    {
      assert a in used3 * avoid;
    }
    g := new Graph(bs3);
  }

  /** The callbacks of the two tone generators (presentation-main.js:113-114). */
  function SlowTone(tick: nat): real { 0.3 }
  function FastTone(tick: nat): real { 10.0 }

  /** presentation-main.js:113-115: the two tones and their sum. */
  ghost predicate ToneWiring(bs: seq<Block>) {
    var n := SampleCount * 2;
    |bs| >= 3 &&
    bs[0].SiggenBlock? && bs[0].gen.radiansPerSampleFn == SlowTone && bs[0].Output().Length == n &&
    bs[1].SiggenBlock? && bs[1].gen.radiansPerSampleFn == FastTone && bs[1].Output().Length == n &&
    bs[2].AddBlock? && bs[2].add.in1 == bs[0].Output() && bs[2].add.in2 == bs[1].Output() &&
    bs[2].Output().Length == n
  }

  /** presentation-main.js:113-115: two tones and their sum. */
  method WireTones(ghost avoid: set<Buffer>)
    returns (bs: seq<Block>, twosig: Buffer, ghost used: set<Buffer>, ghost outs: set<Buffer>)
    ensures Wiring(bs, used, outs, {}, avoid) && |bs| == 3 && twosig in used && fresh(used)
    ensures ToneWiring(bs) && twosig == bs[2].Output()
  {
    var n := SampleCount * 2;
    ghost var sources: set<Buffer> := {};
    bs, used, outs := [], {}, {};

    var twosig1, twosig2;
    bs, twosig1, used, outs := AttachSiggen(bs, n, SlowTone, used, outs, sources, avoid);
    ghost var slow := bs;
    bs, twosig2, used, outs := AttachSiggen(bs, n, FastTone, used, outs, sources, avoid);
    ghost var fast := bs;

    twosig := ZeroBuffer(n, used + avoid);
    var sum := new Add(twosig1, twosig2, twosig);
    WiringStep(bs, AddBlock(sum), used, outs, sources, avoid);
    bs, used, outs := bs + [AddBlock(sum)], used + {twosig}, outs + {twosig};
    assert bs[0] == fast[0] == slow[0] && bs[1] == fast[1];
  }

  /** The block list of the two-signal graph (presentation-main.js:112-118):
      tones of 0.3 and 10 radians per sample, their sum, and the sum
      filtered by two 3-tap filters over complex samples. */
  ghost predicate TwoSignalWiring(bs: seq<Block>) {
    var n := SampleCount * 2;
    |bs| == 5 && ToneWiring(bs) &&
    bs[3].FIRFilterBlock? && bs[3].fir.in1 == bs[2].Output() && bs[3].fir.step == 2 &&
    bs[3].fir.delay == 0 && bs[3].fir.taps == [FilterOuterCoeff, FilterInnerCoeff, FilterOuterCoeff] &&
    bs[3].Output().Length == n &&
    bs[4].FIRFilterBlock? && bs[4].fir.in1 == bs[2].Output() && bs[4].fir.step == 2 &&
    bs[4].fir.delay == 0 && bs[4].fir.taps == [-FilterOuterCoeff, FilterInnerCoeff, -FilterOuterCoeff] &&
    bs[4].Output().Length == n
  }

  /** The tone stage and the two filters appended after it form the
      two-signal graph. */
  lemma TwoSignalShape(tones: seq<Block>, withLow: seq<Block>, bs: seq<Block>)
    requires |tones| == 3 && ToneWiring(tones)
    requires |withLow| == 4 && withLow[..3] == tones
    requires |bs| == 5 && bs[..4] == withLow
    requires var n := SampleCount * 2;
             withLow[3].FIRFilterBlock? && withLow[3].fir.in1 == tones[2].Output() &&
             withLow[3].fir.step == 2 && withLow[3].fir.delay == 0 &&
             withLow[3].fir.taps == [FilterOuterCoeff, FilterInnerCoeff, FilterOuterCoeff] &&
             withLow[3].Output().Length == n &&
             bs[4].FIRFilterBlock? && bs[4].fir.in1 == tones[2].Output() &&
             bs[4].fir.step == 2 && bs[4].fir.delay == 0 &&
             bs[4].fir.taps == [-FilterOuterCoeff, FilterInnerCoeff, -FilterOuterCoeff] &&
             bs[4].Output().Length == n
    ensures TwoSignalWiring(bs)
  {
    assert bs[3] == withLow[3];
    assert bs[0] == tones[0] && bs[1] == tones[1] && bs[2] == tones[2];
  }

  /** The two-signal graph (presentation-main.js:107-118): two tones, their
      sum, and its low- and high-pass filtered versions.  It has no source
      buffers, and all its buffers are new. */
  method BuildTwoSignalGraph(ghost avoid: set<Buffer>) returns (g: Graph)
    ensures g.Valid() && TwoSignalWiring(g.blocks)
    ensures ProducerBeforeConsumer(g.blocks) && SingleWriter(g.blocks)
    ensures g.Bufs() !! avoid && fresh(g.Bufs())
  {
    var n := SampleCount * 2;
    ghost var sources: set<Buffer> := {};
    var bs, twosig, used, outs := WireTones(avoid);
    ghost var tones := bs;

    bs, used, outs := AttachFir(bs, twosig, n, 2, 0,
                                [FilterOuterCoeff, FilterInnerCoeff, FilterOuterCoeff],
                                used, outs, sources, avoid);
    assert fresh(used);
    ghost var withLow := bs;
    bs, used, outs := AttachFir(bs, twosig, n, 2, 0,
                                [-FilterOuterCoeff, FilterInnerCoeff, -FilterOuterCoeff],
                                used, outs, sources, avoid);
    assert fresh(used) && used !! avoid;
    TwoSignalShape(tones, withLow, bs);

    WiredIsOrdered(bs);
    g := new Graph(bs);
    assert g.Bufs() <= used;
  }

  /** presentation-main.js:107-118: the two-signal graph is built and run
      once, at load time.  Its buffers then hold a settled state: running
      the graph again would leave every one of them as it is. */
  method RunTwoSignalGraph(ghost avoid: set<Buffer>, m: Trig) returns (g: Graph)
    ensures g.Valid() && TwoSignalWiring(g.blocks)
    ensures g.Bufs() !! avoid
    ensures Snapshot(g.Bufs()) == Exec(g.blocks, Snapshot(g.Bufs()), m, 0)
  {
    g := BuildTwoSignalGraph(avoid);
    ghost var e0 := Snapshot(g.Bufs());
    g.Run(m, 0);
    ExecIdempotent(g.blocks, e0, m, 0);
  }

  // ---------------------------------------------------------------------
  // Rising-edge trigger and window copy (presentation-main.js:707-718)

  /** `a[k] <= 0 && a[k + 1] > 0` on the capture; a read past the end is
      `undefined`, for which both comparisons are false. */
  predicate RisingEdge(s: seq<Sample>, k: int) {
    AtMostZero(At(s, k)) && Above(At(s, k + 1), 0.0)
  }

  /** Where `for (i = from; i < limit; i++) if (RisingEdge) break;`
      leaves i: at the first rising edge in [from, limit), at limit when
      there is none, and at from when the range is empty. */
  function TriggerIndex(s: seq<Sample>, from: int, limit: int): (i: int)
    ensures from <= i && (from <= limit ==> i <= limit) && (limit < from ==> i == from)
    ensures i < limit ==> RisingEdge(s, i)
    ensures forall k :: from <= k < i ==> !RisingEdge(s, k)
    decreases limit - from
  {
    if from >= limit || RisingEdge(s, from) then from
    else TriggerIndex(s, from + 1, limit)
  }

  /** `Math.max`/`Math.min` clamping of a `subarray` bound: a negative
      bound counts from the end. */
  function ClampIndex(rel: int, len: nat): (r: nat)
    ensures r <= len
    ensures 0 <= rel <= len ==> r == rel
    ensures rel < 0 ==> r == Max(len + rel, 0)
    ensures len < rel ==> r == len
  {
    if rel < 0 then Max(len + rel, 0) else Min(rel, len)
  }

  /** `s.subarray(begin, end)`, viewed as a value. */
  function Subarray(s: seq<Sample>, begin: int, end: int): (r: seq<Sample>)
    ensures |r| <= |s|
    ensures 0 <= begin <= end <= |s| ==> r == s[begin..end]
  {
    var lo := ClampIndex(begin, |s|);
    var hi := Max(ClampIndex(end, |s|), lo);
    s[lo..hi]
  }

  /** `target.set(src)`: src copied over the front of target, the rest
      unchanged. */
  function SetFrom(target: seq<Sample>, src: seq<Sample>): (r: seq<Sample>)
    requires |src| <= |target|
    ensures |r| == |target|
    ensures r[..|src|] == src && r[|src|..] == target[|src|..]
  {
    src + target[|src|..]
  }

  /** The window centred on the trigger point of a full capture. */
  function TriggerWindow(capture: seq<Sample>): (w: seq<Sample>)
    requires |capture| == FftSize
    ensures |w| == SampleCount
  {
    var i := TriggerIndex(capture, Half, TriggerLimit);
    capture[i - Half .. i + Half]
  }

  /** The window copied from the trigger point lies inside the capture, has
      the length of the display buffer, and so replaces all of it. */
  lemma WindowInCapture(capture: seq<Sample>, display: seq<Sample>)
    requires |capture| == FftSize && |display| == SampleCount
    ensures var i := TriggerIndex(capture, Half, TriggerLimit);
      Half <= i <= TriggerLimit &&
      0 <= i - Half && i + Half < |capture| &&
      |Subarray(capture, i - Half, i + Half)| == 2 * Half == |display| &&
      SetFrom(display, Subarray(capture, i - Half, i + Half)) == TriggerWindow(capture)
  {
  }

  /** When the capture has a rising edge in the searched range, the display
      buffer shows it at its centre: the sample at Half is at most 0 and the
      next one is positive. */
  lemma TriggerWindowCentred(capture: seq<Sample>, k: int)
    requires |capture| == FftSize && Half <= k < TriggerLimit && RisingEdge(capture, k)
    ensures AtMostZero(TriggerWindow(capture)[Half])
    ensures Above(TriggerWindow(capture)[Half + 1], 0.0)
  {
    var i := TriggerIndex(capture, Half, TriggerLimit);
    assert i <= k;
  }

  // ---------------------------------------------------------------------
  // Key and level-trigger flags (presentation-main.js:691-702, 726-735)

  datatype Flags = Flags(paused: bool, leveltrigger: bool)

  /** The keydown handler: space toggles `paused`, 'T' arms the level
      trigger and resumes; any other key changes nothing. */
  function OnKey(f: Flags, keyCode: int): (r: Flags)
    ensures keyCode == Space ==> r == Flags(!f.paused, f.leveltrigger)
    ensures keyCode == KeyT ==> r == Flags(false, true)
    ensures keyCode != Space && keyCode != KeyT ==> r == f
  {
    var f1 := if keyCode == Space then f.(paused := !f.paused) else f;
    if keyCode == KeyT then Flags(false, true) else f1
  }

  /** Some displayed sample is above the 0.5 level. */
  predicate Exceeds(s: seq<Sample>, level: real) {
    exists k :: 0 <= k < |s| && Above(s[k], level)
  }

  /** The level-trigger scan at the end of each frame: an armed trigger
      that sees a sample above 0.5 disarms and pauses. */
  function AfterLevelScan(f: Flags, display: seq<Sample>): (r: Flags)
    ensures r.paused == (f.paused || (f.leveltrigger && Exceeds(display, 0.5)))
    ensures r.leveltrigger == (f.leveltrigger && !Exceeds(display, 0.5))
  {
    if f.leveltrigger && Exceeds(display, 0.5) then Flags(true, false) else f
  }

  /** Pressing space twice restores the flags. */
  lemma SpaceTwice(f: Flags)
    ensures OnKey(OnKey(f, Space), Space) == f
  {
  }

  /** An armed trigger fires exactly once: after it fires, later scans
      leave the flags alone until 'T' is pressed again. */
  lemma LevelTriggerFiresOnce(f: Flags, d1: seq<Sample>, d2: seq<Sample>)
    requires f.leveltrigger && Exceeds(d1, 0.5)
    ensures AfterLevelScan(f, d1) == Flags(true, false)
    ensures AfterLevelScan(AfterLevelScan(f, d1), d2) == Flags(true, false)
  {
  }

  /** Without an armed trigger the scan changes nothing. */
  lemma DisarmedScanIsIdle(f: Flags, d: seq<Sample>)
    requires !f.leveltrigger
    ensures AfterLevelScan(f, d) == f
  {
  }

  // ---------------------------------------------------------------------
  // The presentation's signal state

  /** The load-time part of presentation-main.js:55, 79-118, 704: the
      display and capture buffers, graph `g`, and the two-signal graph,
      which is run once. */
  method SetUp(demodFrequency: nat -> real, m: Trig)
    returns (audio: Buffer, trigger: Buffer, main: Graph, two: Graph)
    ensures audio.Length == SampleCount && trigger.Length == FftSize && audio != trigger
    ensures forall k :: 0 <= k < SampleCount ==> audio[k] == Num(0.0)
    ensures main.Valid() && MainWiring(main.blocks, audio, demodFrequency)
    ensures audio in main.Bufs() && audio !in Outputs(main.blocks) && trigger !in main.Bufs()
    ensures two.Valid() && TwoSignalWiring(two.blocks)
    ensures two.Bufs() !! {audio, trigger} + main.Bufs()
    ensures Snapshot(two.Bufs()) == Exec(two.blocks, Snapshot(two.Bufs()), m, 0)
  {
    audio := ZeroBuffer(SampleCount, {});
    trigger := ZeroBuffer(FftSize, {audio});
    main := BuildMainGraph(audio, demodFrequency, {trigger});
    two := RunTwoSignalGraph({audio, trigger} + main.Bufs(), m);
  }

  /** The two-signal graph as built, after a run that left every one of its
      buffers as a second run would leave it. */
  ghost predicate SettledTwoSignal(two: Graph, m: Trig)
    reads two.Bufs()
  {
    two.Valid() && TwoSignalWiring(two.blocks) &&
    Snapshot(two.Bufs()) == Exec(two.blocks, Snapshot(two.Bufs()), m, 0)
  }

  /** presentation-main.js:52-55, 79-118, 691-692, 704: loading the page
      leaves the zeroed display buffer feeding graph `g`, the two-signal graph
      run once over buffers of its own and settled, and both flags cleared. */
  method Load(demodFrequency: nat -> real, m: Trig) returns (p: Presentation)
    ensures p.Valid() && !p.paused && !p.leveltrigger
    ensures MainWiring(p.g.blocks, p.audioarray, demodFrequency)
    ensures SettledTwoSignal(p.twoSignal, m)
    ensures p.twoSignal.Bufs() !! {p.audioarray, p.audioTriggerArray} + p.g.Bufs()
    ensures forall k :: 0 <= k < SampleCount ==> p.audioarray[k] == Num(0.0)
  {
    var audio, trigger, main, two := SetUp(demodFrequency, m);
    p := Assemble(audio, trigger, main, two, m);
  }

  /** The state over the buffers and graphs built at load time; allocating
      it leaves the settled two-signal graph as it was. */
  method Assemble(audio: Buffer, trigger: Buffer, main: Graph, two: Graph, ghost m: Trig)
    returns (p: Presentation)
    requires SettledTwoSignal(two, m)
    ensures p.audioarray == audio && p.audioTriggerArray == trigger
    ensures p.g == main && p.twoSignal == two && !p.paused && !p.leveltrigger
    ensures SettledTwoSignal(p.twoSignal, m)
  {
    ghost var e := Snapshot(two.Bufs());
    p := new Presentation(audio, trigger, main, two);
    assert Snapshot(two.Bufs()) == e;
  }

  /** The module-level state of presentation-main.js that the signal path
      touches: the display buffer, the analyser capture buffer, graph `g`
      and the two flags. */
  class Presentation {
    const audioarray: Buffer
    const audioTriggerArray: Buffer
    const g: Graph
    const twoSignal: Graph
    var paused: bool
    var leveltrigger: bool

    ghost predicate Valid() {
      audioarray.Length == SampleCount && audioTriggerArray.Length == FftSize &&
      audioarray != audioTriggerArray && g.Valid() &&
      audioarray in g.Bufs() && audioarray !in Outputs(g.blocks) &&
      audioTriggerArray !in g.Bufs()
    }

    function State(): Flags
      reads this
    {
      Flags(paused, leveltrigger)
    }

    /** presentation-main.js:691-692: the state over the buffers and graphs
        built at load time, with both flags cleared. */
    constructor (audio: Buffer, trigger: Buffer, main: Graph, two: Graph)
      ensures audioarray == audio && audioTriggerArray == trigger
      ensures g == main && twoSignal == two
      ensures !paused && !leveltrigger
    {
      audioarray := audio;
      audioTriggerArray := trigger;
      g := main;
      twoSignal := two;
      paused := false;
      leveltrigger := false;
    }

    /** presentation-main.js:691-702 */
    method KeyDown(keyCode: int)
      requires Valid()
      modifies this
      ensures Valid()
      ensures State() == OnKey(old(State()), keyCode)
    {
      if keyCode == Space {
        paused := !paused;
      }
      if keyCode == KeyT {
        leveltrigger := true;
        paused := false;
      }
    }

    /** presentation-main.js:710-717: the rising-edge search. */
    method FindTrigger(from: int, limit: int) returns (i: int)
      ensures i == TriggerIndex(audioTriggerArray[..], from, limit)
    {
      i := from;
      while i < limit
        invariant from <= i && (from <= limit ==> i <= limit)
        invariant TriggerIndex(audioTriggerArray[..], from, limit)
                  == TriggerIndex(audioTriggerArray[..], i, limit)
        decreases limit - i
      {
        if AtMostZero(Get(audioTriggerArray, i)) && Above(Get(audioTriggerArray, i + 1), 0.0) {
          break;
        }
        i := i + 1;
      }
    }

    /** presentation-main.js:718: `audioarray.set(audioTriggerArray.subarray(begin, end))`. */
    method CopyWindow(begin: int, end: int)
      requires audioarray != audioTriggerArray
      requires |Subarray(audioTriggerArray[..], begin, end)| <= audioarray.Length
      modifies audioarray
      ensures audioarray[..] == SetFrom(old(audioarray[..]), Subarray(audioTriggerArray[..], begin, end))
    {
      var lo := ClampIndex(begin, audioTriggerArray.Length);
      var hi := Max(ClampIndex(end, audioTriggerArray.Length), lo);
      ghost var src := Subarray(audioTriggerArray[..], begin, end);
      ghost var o := audioarray[..];
      var k := 0;
      while k < hi - lo
        invariant 0 <= k <= hi - lo
        invariant forall p :: 0 <= p < audioarray.Length ==>
          audioarray[p] == if p < k then src[p] else o[p]
      {
        audioarray[k] := audioTriggerArray[lo + k];
        k := k + 1;
      }
      assert audioarray[..] == SetFrom(o, src);
    }

    /** presentation-main.js:726-735: the level-trigger scan, from the last
        displayed sample down. */
    method LevelScan()
      requires Valid()
      modifies this
      ensures Valid()
      ensures State() == AfterLevelScan(old(State()), audioarray[..])
    {
      if leveltrigger {
        var i := audioarray.Length - 1;
        while i >= 0
          invariant -1 <= i < audioarray.Length
          invariant forall k :: i < k < audioarray.Length ==> !Above(audioarray[k], 0.5)
          invariant State() == old(State())
        {
          if Above(audioarray[i], 0.5) {
            leveltrigger := false;
            paused := true;
            break;
          }
          i := i - 1;
        }
      }
    }

    /** presentation-main.js:709: `getFloatTimeDomainData` fills the
        capture buffer. */
    method Receive(capture: seq<Sample>)
      requires |capture| == audioTriggerArray.Length
      modifies audioTriggerArray
      ensures audioTriggerArray[..] == capture
    {
      forall k | 0 <= k < audioTriggerArray.Length {
        audioTriggerArray[k] := capture[k];
      }
    }

    /** presentation-main.js:707-718: take the capture and copy the window
        around its trigger point into `audioarray`. */
    method Capture(capture: seq<Sample>)
      requires Valid() && |capture| == FftSize
      modifies audioarray, audioTriggerArray
      ensures audioTriggerArray[..] == capture
      ensures audioarray[..] == TriggerWindow(capture)
    {
      Receive(capture);
      var outLengthHalf := audioarray.Length / 2;
      var limit := audioTriggerArray.Length - outLengthHalf - 1;
      var i := FindTrigger(outLengthHalf, limit);
      WindowInCapture(capture, audioarray[..]);
      CopyWindow(i - outLengthHalf, i + outLengthHalf);
    }

    /** presentation-main.js:706-720: unless paused, take the capture and
        copy the window around its trigger point into `audioarray`.  Of the
        buffers of graph `g`, only `audioarray` can change. */
    method CaptureUnlessPaused(capture: seq<Sample>)
      requires Valid() && |capture| == FftSize
      modifies audioarray, audioTriggerArray
      ensures paused ==> audioarray[..] == old(audioarray[..])
      ensures paused ==> audioTriggerArray[..] == old(audioTriggerArray[..])
      ensures !paused ==> audioTriggerArray[..] == capture
      ensures !paused ==> audioarray[..] == TriggerWindow(capture)
      ensures Snapshot(g.Bufs()) == old(Snapshot(g.Bufs()))[audioarray := audioarray[..]]
    {
      ghost var e0 := Snapshot(g.Bufs());
      if !paused {
        Capture(capture);
      }
      UpdateExt(Snapshot(g.Bufs()), e0, audioarray, audioarray[..]);
    }

    /** presentation-main.js:722-724: graph `g` runs unless paused at a
        step other than the demodulation step.  It never writes the display
        or the capture buffer. */
    method RunUnlessPaused(atDemodStep: bool, m: Trig, tick: nat)
      requires Valid()
      modifies Outputs(g.blocks)
      ensures !paused || atDemodStep ==>
        Snapshot(g.Bufs()) == Exec(g.blocks, old(Snapshot(g.Bufs())), m, tick)
      ensures paused && !atDemodStep ==> Snapshot(g.Bufs()) == old(Snapshot(g.Bufs()))
      ensures audioarray[..] == old(audioarray[..])
      ensures audioTriggerArray[..] == old(audioTriggerArray[..])
    {
      if !paused || atDemodStep {
        g.Run(m, tick);
      }
    }

    /** presentation-main.js:705-736: one animation frame.  Unless paused,
        the capture is taken and the window around its trigger point is
        copied into `audioarray`; graph `g` runs unless paused at a step
        other than the demodulation step; then the level trigger is
        checked against the displayed samples. */
    method UpdateFFT(capture: seq<Sample>, atDemodStep: bool, m: Trig, tick: nat)
      requires Valid() && |capture| == FftSize
      modifies this, audioarray, audioTriggerArray, Outputs(g.blocks)
      ensures old(paused) ==> audioarray[..] == old(audioarray[..])
      ensures old(paused) ==> audioTriggerArray[..] == old(audioTriggerArray[..])
      ensures !old(paused) ==> audioTriggerArray[..] == capture
      ensures !old(paused) ==> audioarray[..] == TriggerWindow(capture)
      ensures !old(paused) || atDemodStep ==>
        Snapshot(g.Bufs()) == Exec(g.blocks, old(Snapshot(g.Bufs()))[audioarray := audioarray[..]], m, tick)
      ensures old(paused) && !atDemodStep ==> Snapshot(g.Bufs()) == old(Snapshot(g.Bufs()))
      ensures Valid()
      ensures State() == AfterLevelScan(old(State()), audioarray[..])
    {
      Signal(capture, atDemodStep, m, tick);
      ghost var e := Snapshot(g.Bufs());
      LevelScan();
      assert Snapshot(g.Bufs()) == e;
    }

    /** presentation-main.js:706-724: the capture and the graph run, which
        leave the flags alone. */
    method Signal(capture: seq<Sample>, atDemodStep: bool, m: Trig, tick: nat)
      requires Valid() && |capture| == FftSize
      modifies audioarray, audioTriggerArray, Outputs(g.blocks)
      ensures paused ==> audioarray[..] == old(audioarray[..])
      ensures paused ==> audioTriggerArray[..] == old(audioTriggerArray[..])
      ensures !paused ==> audioTriggerArray[..] == capture
      ensures !paused ==> audioarray[..] == TriggerWindow(capture)
      ensures !paused || atDemodStep ==>
        Snapshot(g.Bufs()) == Exec(g.blocks, old(Snapshot(g.Bufs()))[audioarray := audioarray[..]], m, tick)
      ensures paused && !atDemodStep ==> Snapshot(g.Bufs()) == old(Snapshot(g.Bufs()))
    {
      ghost var e0 := Snapshot(g.Bufs());
      CaptureUnlessPaused(capture);
      ghost var e1 := Snapshot(g.Bufs());
      if paused {
        assert e1 == e0;
      }
      RunUnlessPaused(atDemodStep, m, tick);
    }
  }
}
