/** The dataflow graph of dsp.js (dsp.js:158-165).

    `Graph(blocks)` captures a list of run closures and returns a closure
    that runs each of them once, in list order.  The effect of a block on a
    set of buffers is stated over an environment mapping each buffer to its
    contents: `Apply` replaces the block's output by its closed form, and
    `Exec` applies a list of blocks in order. */
module DspGraph {
  import opened Samples
  import opened DspSpec
  import opened Dsp

  type Buffer = array<Sample>

  /** The contents of a set of buffers. */
  type Env = map<Buffer, seq<Sample>>

  /** Every entry has the length of its buffer. */
  predicate Sized(e: Env) {
    forall a :: a in e ==> |e[a]| == a.Length
  }

  ghost function Snapshot(bufs: set<Buffer>): (e: Env)
    reads bufs
    ensures e.Keys == bufs && Sized(e)
  {
    map a | a in bufs :: a[..]
  }

  /** One of the closures of the block library, with the buffers it captured. */
  datatype Block =
    | ToComplexBlock(toComplex: ToComplex)
    | AMModulatorBlock(am: AMModulator)
    | FMModulatorBlock(fm: FMModulator)
    | FIRFilterBlock(fir: FIRFilter)
    | AddBlock(add: Add)
    | MultiplyBlock(mul: Multiply)
    | RotatorBlock(rot: Rotator)
    | SiggenBlock(gen: Siggen)
    | LinearInterpolatorBlock(interp: LinearInterpolator)
  {
    /** The one buffer the block writes. */
    function Output(): Buffer {
      match this
      case ToComplexBlock(b) => b.iqout
      case AMModulatorBlock(b) => b.iqout
      case FMModulatorBlock(b) => b.iqout
      case FIRFilterBlock(b) => b.out
      case AddBlock(b) => b.out
      case MultiplyBlock(b) => b.iqout
      case RotatorBlock(b) => b.iqout
      case SiggenBlock(b) => b.iqout
      case LinearInterpolatorBlock(b) => b.iqout
    }

    /** The buffers the block reads. */
    function Inputs(): set<Buffer> {
      match this
      case ToComplexBlock(b) => {b.audioin}
      case AMModulatorBlock(b) => {b.audioin}
      case FMModulatorBlock(b) => {b.audioin}
      case FIRFilterBlock(b) => {b.in1}
      case AddBlock(b) => {b.in1, b.in2}
      case MultiplyBlock(b) => {b.iqin1, b.iqin2}
      case RotatorBlock(b) => {b.iqin}
      case SiggenBlock(b) => {}
      case LinearInterpolatorBlock(b) => {b.iqin}
    }

    function Buffers(): set<Buffer> {
      Inputs() + {Output()}
    }

    predicate Valid() {
      match this
      case ToComplexBlock(b) => b.Valid()
      case AMModulatorBlock(b) => b.Valid()
      case FMModulatorBlock(b) => b.Valid()
      case FIRFilterBlock(b) => b.Valid()
      case AddBlock(b) => b.Valid()
      case MultiplyBlock(b) => b.Valid()
      case RotatorBlock(b) => b.Valid()
      case SiggenBlock(b) => b.Valid()
      case LinearInterpolatorBlock(b) => b.Valid()
    }
  }

  /** The new contents of the block's output after one run in environment e. */
  function Outcome(b: Block, e: Env, m: Trig, tick: nat): (r: seq<Sample>)
    requires b.Valid() && b.Buffers() <= e.Keys && Sized(e)
    ensures |r| == b.Output().Length
  {
    match b
    case ToComplexBlock(c) => ToComplexOut(e[c.audioin], e[c.iqout])
    case AMModulatorBlock(c) => AMModulatorOut(e[c.audioin], e[c.iqout])
    case FMModulatorBlock(c) => FMModulatorOut(e[c.audioin], e[c.iqout], c.deviation, m)
    case FIRFilterBlock(c) => FirOut(e[c.in1], e[c.out], c.step, c.delay, c.taps)
    case AddBlock(c) => AddOut(e[c.in1], e[c.in2], e[c.out])
    case MultiplyBlock(c) => MultiplyOut(e[c.iqin1], e[c.iqin2], e[c.iqout])
    case RotatorBlock(c) => RotatorOut(e[c.iqin], e[c.iqout], c.radiansPerSample, m)
    case SiggenBlock(c) => SiggenOut(e[c.iqout], c.radiansPerSampleFn(tick), m)
    case LinearInterpolatorBlock(c) => LinearOut(e[c.iqin], e[c.iqout])
  }

  /** A block's outcome depends only on the contents of its own buffers. */
  lemma OutcomeLocal(b: Block, e1: Env, e2: Env, m: Trig, tick: nat)
    requires b.Valid() && b.Buffers() <= e1.Keys && b.Buffers() <= e2.Keys
    requires Sized(e1) && Sized(e2)
    requires forall a :: a in b.Buffers() ==> e1[a] == e2[a]
    ensures Outcome(b, e1, m, tick) == Outcome(b, e2, m, tick)
  {
    assert b.Output() in b.Buffers();
  }

  /** One run of a block: its output takes its outcome, nothing else changes. */
  function Apply(b: Block, e: Env, m: Trig, tick: nat): (r: Env)
    requires b.Valid() && b.Buffers() <= e.Keys && Sized(e)
    ensures r.Keys == e.Keys && Sized(r)
    ensures forall a :: a in e && a != b.Output() ==> r[a] == e[a]
  {
    e[b.Output() := Outcome(b, e, m, tick)]
  }

  predicate AllValid(bs: seq<Block>) {
    forall i :: 0 <= i < |bs| ==> bs[i].Valid()
  }

  predicate Covers(bs: seq<Block>, keys: set<Buffer>) {
    forall i :: 0 <= i < |bs| ==> bs[i].Buffers() <= keys
  }

  /** Every buffer some block of bs reads or writes. */
  ghost function AllBuffers(bs: seq<Block>): (r: set<Buffer>)
    ensures Covers(bs, r)
    decreases |bs|
  {
    if |bs| == 0 then {}
    else
      var p := bs[..|bs| - 1];
      assert forall i :: 0 <= i < |p| ==> p[i] == bs[i];
      AllBuffers(p) + bs[|bs| - 1].Buffers()
  }

  /** Every buffer some block of bs writes. */
  ghost function Outputs(bs: seq<Block>): (r: set<Buffer>)
    ensures forall i :: 0 <= i < |bs| ==> bs[i].Output() in r
    ensures forall a :: a in r ==> exists i :: 0 <= i < |bs| && a == bs[i].Output()
    decreases |bs|
  {
    if |bs| == 0 then {}
    else
      var p := bs[..|bs| - 1];
      assert forall i :: 0 <= i < |p| ==> p[i] == bs[i];
      Outputs(p) + {bs[|bs| - 1].Output()}
  }

  /** Running the blocks of bs once each, in list order. */
  function Exec(bs: seq<Block>, e: Env, m: Trig, tick: nat): (r: Env)
    requires AllValid(bs) && Covers(bs, e.Keys) && Sized(e)
    ensures r.Keys == e.Keys && Sized(r)
    decreases |bs|
  {
    if |bs| == 0 then e
    else Apply(bs[|bs| - 1], Exec(bs[..|bs| - 1], e, m, tick), m, tick)
  }

  /** The run of block b inside a graph: dispatch to its closure. */
  method RunBlock(b: Block, m: Trig, tick: nat)
    requires b.Valid()
    modifies b.Output()
    ensures b.Output()[..] == Outcome(b, old(Snapshot(b.Buffers())), m, tick)
  {
    match b
    case ToComplexBlock(c) => c.Run();
    case AMModulatorBlock(c) => c.Run();
    case FMModulatorBlock(c) => c.Run(m);
    case FIRFilterBlock(c) => c.Run();
    case AddBlock(c) => c.Run();
    case MultiplyBlock(c) => c.Run();
    case RotatorBlock(c) => c.Run(m);
    case SiggenBlock(c) => var _ := c.Run(m, tick);
    case LinearInterpolatorBlock(c) => c.Run();
  }

  /** dsp.js:158-165: the closure returned by `Graph(blocks)`. */
  class Graph {
    const blocks: seq<Block>
    const limit: nat

    predicate Valid() {
      limit == |blocks| && AllValid(blocks)
    }

    constructor (blocks: seq<Block>)
      requires AllValid(blocks)
      ensures this.blocks == blocks && Valid()
    {
      this.blocks := blocks;
      limit := |blocks|;
    }

    /** Every buffer some block of the graph reads or writes. */
    ghost function Bufs(): set<Buffer> {
      AllBuffers(blocks)
    }

    /** One invocation runs each captured block exactly once, in list order. */
    method Run(m: Trig, tick: nat)
      requires Valid()
      modifies Outputs(blocks)
      ensures Snapshot(Bufs()) == Exec(blocks, old(Snapshot(Bufs())), m, tick)
    {
      ghost var e0 := Snapshot(Bufs());
      var i := 0;
      while i < limit
        invariant 0 <= i <= limit
        invariant Covers(blocks[..i], e0.Keys)
        invariant Snapshot(Bufs()) == Exec(blocks[..i], e0, m, tick)
      {
        var b := blocks[i];
        assert b.Buffers() <= Bufs();
        ghost var before := Snapshot(Bufs());
        ghost var own := Snapshot(b.Buffers());
        RunBlock(b, m, tick);
        ghost var now := Snapshot(Bufs());
        assert forall a :: a in Bufs() && a != b.Output() ==> now[a] == before[a];
        OutcomeLocal(b, own, before, m, tick);
        UpdateExt(now, before, b.Output(), Outcome(b, before, m, tick));
        ExecStep(blocks, i, e0, m, tick);
        i := i + 1;
      }
      assert blocks[..i] == blocks;
    }
  }

  /** Two environments that differ only at o. */
  lemma UpdateExt(now: Env, before: Env, o: Buffer, w: seq<Sample>)
    requires now.Keys == before.Keys && o in now && now[o] == w
    requires forall a :: a in now && a != o ==> now[a] == before[a]
    ensures now == before[o := w]
  {
  }

  /** Running one more block of the list. */
  lemma ExecStep(bs: seq<Block>, i: nat, e: Env, m: Trig, tick: nat)
    requires i < |bs| && AllValid(bs) && Covers(bs, e.Keys) && Sized(e)
    ensures Covers(bs[..i], e.Keys) && Covers(bs[..i + 1], e.Keys)
    ensures Exec(bs[..i + 1], e, m, tick) == Apply(bs[i], Exec(bs[..i], e, m, tick), m, tick)
  {
    assert bs[..i + 1][..i] == bs[..i];
  }

  // ---------------------------------------------------------------------
  // Properties of running a list of blocks

  /** Running bs + cs is running bs, then cs. */
  lemma {:induction false} ExecAppend(bs: seq<Block>, cs: seq<Block>, e: Env, m: Trig, tick: nat)
    requires AllValid(bs + cs) && Covers(bs + cs, e.Keys) && Sized(e)
    ensures AllValid(bs) && Covers(bs, e.Keys) && AllValid(cs) && Covers(cs, e.Keys)
    ensures Exec(bs + cs, e, m, tick) == Exec(cs, Exec(bs, e, m, tick), m, tick)
    decreases |cs|
  {
    SplitValid(bs, cs, e.Keys);
    if |cs| == 0 {
      assert bs + cs == bs;
    } else {
      var cs', c := cs[..|cs| - 1], cs[|cs| - 1];
      assert bs + cs == (bs + cs') + [c];
      SplitValid(bs + cs', [c], e.Keys);
      ExecAppend(bs, cs', e, m, tick);
      var x := Exec(bs, e, m, tick);
      assert (bs + cs)[..|bs + cs| - 1] == bs + cs';
      assert Exec(bs + cs, e, m, tick) == Apply(c, Exec(bs + cs', e, m, tick), m, tick);
      assert Exec(cs, x, m, tick) == Apply(c, Exec(cs', x, m, tick), m, tick);
    }
  }

  /** Both parts of a runnable list are runnable. */
  lemma SplitValid(bs: seq<Block>, cs: seq<Block>, keys: set<Buffer>)
    requires AllValid(bs + cs) && Covers(bs + cs, keys)
    ensures AllValid(bs) && Covers(bs, keys) && AllValid(cs) && Covers(cs, keys)
  {
    assert forall i :: 0 <= i < |bs| ==> (bs + cs)[i] == bs[i];
    assert forall i :: 0 <= i < |cs| ==> (bs + cs)[|bs| + i] == cs[i];
  }

  /** No block of bs reads a buffer written by itself or by a later block:
      every buffer is produced before it is consumed. */
  predicate ProducerBeforeConsumer(bs: seq<Block>) {
    forall i, j :: 0 <= j <= i < |bs| ==> bs[i].Output() !in bs[j].Inputs()
  }

  /** No two blocks of bs write the same buffer. */
  predicate SingleWriter(bs: seq<Block>) {
    forall i, j :: 0 <= i < j < |bs| ==> bs[i].Output() != bs[j].Output()
  }

  lemma AppendBuffers(bs: seq<Block>, b: Block)
    ensures AllBuffers(bs + [b]) == AllBuffers(bs) + b.Buffers()
    ensures Outputs(bs + [b]) == Outputs(bs) + {b.Output()}
  {
    assert (bs + [b])[..|bs|] == bs;
  }

  /** Appending a block whose output no earlier block touches, and which
      does not read its own output, keeps a list producer-before-consumer
      and single-writer. */
  lemma ExtendOrdered(bs: seq<Block>, b: Block)
    requires ProducerBeforeConsumer(bs) && SingleWriter(bs) && AllValid(bs) && b.Valid()
    requires b.Output() !in AllBuffers(bs)
    ensures ProducerBeforeConsumer(bs + [b]) && SingleWriter(bs + [b]) && AllValid(bs + [b])
    ensures AllBuffers(bs + [b]) == AllBuffers(bs) + b.Buffers()
    ensures Outputs(bs + [b]) == Outputs(bs) + {b.Output()}
  {
    AppendBuffers(bs, b);
    assert forall i :: 0 <= i < |bs| ==> (bs + [b])[i] == bs[i];
    assert b.Output() !in b.Inputs();
    var cs := bs + [b];
    forall i, j | 0 <= j <= i < |cs|
      ensures cs[i].Output() !in cs[j].Inputs()
    {
      if i == |bs| {
        if j < |bs| {
          assert cs[j] == bs[j];
          assert bs[j].Inputs() <= bs[j].Buffers();
        }
      } else {
        assert cs[i] == bs[i] && cs[j] == bs[j];
      }
    }
    forall i, j | 0 <= i < j < |cs|
      ensures cs[i].Output() != cs[j].Output()
    {
      assert cs[i] == bs[i];
      if j == |bs| {
        assert bs[i].Output() in bs[i].Buffers();
      } else {
        assert cs[j] == bs[j];
      }
    }
  }

  /** bs can be listed one block at a time, each valid block writing a
      buffer that no earlier block reads or writes. */
  ghost predicate Wired(bs: seq<Block>)
    decreases |bs|
  {
    |bs| == 0 ||
    (var p, b := bs[..|bs| - 1], bs[|bs| - 1];
     Wired(p) && b.Valid() && b.Output() !in AllBuffers(p))
  }

  /** Appending a valid block that reads only buffers already in use and
      writes a new one. */
  lemma WiredAppend(bs: seq<Block>, b: Block, used: set<Buffer>, outs: set<Buffer>)
    requires Wired(bs) && AllBuffers(bs) <= used && Outputs(bs) == outs
    requires b.Valid() && b.Inputs() <= used && b.Output() !in used
    ensures Wired(bs + [b])
    ensures AllBuffers(bs + [b]) == AllBuffers(bs) + b.Buffers()
    ensures AllBuffers(bs + [b]) <= used + {b.Output()}
    ensures Outputs(bs + [b]) == outs + {b.Output()}
  {
    AppendBuffers(bs, b);
    assert (bs + [b])[..|bs|] == bs;
  }

  /** A list built that way runs every buffer's producer before its
      consumers and has one writer per buffer. */
  lemma {:induction false} WiredIsOrdered(bs: seq<Block>)
    requires Wired(bs)
    ensures AllValid(bs) && ProducerBeforeConsumer(bs) && SingleWriter(bs)
    decreases |bs|
  {
    if |bs| > 0 {
      var p, b := bs[..|bs| - 1], bs[|bs| - 1];
      WiredIsOrdered(p);
      ExtendOrdered(p, b);
      assert p + [b] == bs;
    }
  }

  /** A buffer no block of bs touches keeps whatever value it is given. */
  lemma {:induction false} ExecFrame(bs: seq<Block>, e: Env, a: Buffer, v: seq<Sample>,
                                    m: Trig, tick: nat)
    requires AllValid(bs) && Covers(bs, e.Keys) && Sized(e)
    requires a in e && |v| == a.Length
    requires forall i :: 0 <= i < |bs| ==> a !in bs[i].Buffers()
    ensures Exec(bs, e[a := v], m, tick) == Exec(bs, e, m, tick)[a := v]
    decreases |bs|
  {
    if |bs| > 0 {
      var p, b := bs[..|bs| - 1], bs[|bs| - 1];
      assert AllValid(p) && Covers(p, e.Keys) by {
        forall i | 0 <= i < |p| ensures p[i] == bs[i] { }
      }
      assert forall i :: 0 <= i < |p| ==> a !in p[i].Buffers() by {
        forall i | 0 <= i < |p| ensures p[i] == bs[i] { }
      }
      ExecFrame(p, e, a, v, m, tick);
      var x: Env := Exec(p, e, m, tick);
      assert a !in b.Buffers();
      OutcomeLocal(b, x[a := v], x, m, tick);
      var w := Outcome(b, x, m, tick);
      var o: Buffer := b.Output();
      assert o in b.Buffers();
      UpdatesCommute(x, a, v, o, w);
    }
  }

  /** Updates of two different buffers can be made in either order. */
  lemma UpdatesCommute(x: Env, a: Buffer, v: seq<Sample>, o: Buffer, w: seq<Sample>)
    requires a != o
    ensures x[a := v][o := w] == x[o := w][a := v]
  {
  }

  /** Re-running a block over unchanged inputs changes nothing. */
  lemma BlockIdempotent(b: Block, e: Env, m: Trig, tick: nat)
    requires b.Valid() && b.Buffers() <= e.Keys && Sized(e)
    ensures Apply(b, Apply(b, e, m, tick), m, tick) == Apply(b, e, m, tick)
  {
    var w := Outcome(b, e, m, tick);
    var e1 := e[b.Output() := w];
    match b
    case ToComplexBlock(c) => ToComplexIdempotent(e[c.audioin], e[c.iqout]);
    case AMModulatorBlock(c) => AMModulatorIdempotent(e[c.audioin], e[c.iqout]);
    case FMModulatorBlock(c) => FMModulatorIdempotent(e[c.audioin], e[c.iqout], c.deviation, m);
    case FIRFilterBlock(c) => FirIdempotent(e[c.in1], e[c.out], c.step, c.delay, c.taps);
    case AddBlock(c) => AddIdempotent(e[c.in1], e[c.in2], e[c.out]);
    case MultiplyBlock(c) => MultiplyIdempotent(e[c.iqin1], e[c.iqin2], e[c.iqout]);
    case RotatorBlock(c) => RotatorIdempotent(e[c.iqin], e[c.iqout], c.radiansPerSample, m);
    case SiggenBlock(c) => SiggenIdempotent(e[c.iqout], c.radiansPerSampleFn(tick), m);
    case LinearInterpolatorBlock(c) => LinearIdempotent(e[c.iqin], e[c.iqout]);
  }

  /** With every buffer produced before it is consumed and written by one
      block only, a second invocation over unchanged source buffers
      recomputes exactly the same contents: the graph is idempotent. */
  lemma {:induction false} ExecIdempotent(bs: seq<Block>, e: Env, m: Trig, tick: nat)
    requires AllValid(bs) && Covers(bs, e.Keys) && Sized(e)
    requires ProducerBeforeConsumer(bs) && SingleWriter(bs)
    ensures Exec(bs, Exec(bs, e, m, tick), m, tick) == Exec(bs, e, m, tick)
    decreases |bs|
  {
    if |bs| > 0 {
      var p, b := bs[..|bs| - 1], bs[|bs| - 1];
      var y := Exec(p, e, m, tick);
      var w := Outcome(b, y, m, tick);
      assert forall i :: 0 <= i < |p| ==> b.Output() !in p[i].Buffers() by {
        forall i | 0 <= i < |p|
          ensures b.Output() !in p[i].Buffers()
        {
          assert p[i] == bs[i];
        }
      }
      ExecIdempotent(p, e, m, tick);
      ExecFrame(p, y, b.Output(), w, m, tick);
      BlockIdempotent(b, y, m, tick);
    }
  }
}
