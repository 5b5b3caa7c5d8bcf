# visual-dsp signal path, modelled in Dafny

visual-dsp is a browser slide presentation on software-defined radio. It
captures microphone audio, puts it through a small chain of DSP blocks, and
draws the intermediate signals. This project models the signal path of that
program:

- **The block library of `dsp.js`.** Each block constructor
  (`ToComplex`, `AMModulator`, `FMModulator`, `FIRFilter`, `Add`,
  `Multiply`, `Rotator`, `Siggen`, `LinearInterpolator`) captures its input
  and output buffers, precomputes its loop limits, and returns a `run`
  closure. Each block is a Dafny class (module `Dsp`) whose `Run` method
  writes into its output array in place. `Run` is proved equal to a
  closed-form specification over the inputs and the previous output
  (module `DspSpec`).
- **`Graph`.** It captures a list of closures and runs each once, in order
  (module `DspGraph`). Its effect is stated over an environment that maps
  each buffer to its contents. The module proves when a second run
  recomputes the same contents.
- **The use of the library in `presentation-main.js`** (module
  `PresentationMain`):
  - the wiring of graph `g` and of the two-signal graph, both proved
    producer-before-consumer and single-writer;
  - the per-frame `updateFFT`: the rising-edge trigger search, the window
    copy into `audioarray`, the conditional run of `g`, and the level
    trigger;
  - the `paused` / `leveltrigger` key handler.

Sample values are exact reals, or NaN (module `Samples`). A read past either
end of a `Float32Array` yields `undefined`, and any arithmetic on it yields
NaN. The function `Samples.At` defines that read, and every closed form
uses it. A store past the end of a typed
array is dropped, so the stores that can overrun are guarded. `Math.cos` and
`Math.sin` are a pair of uninterpreted functions (`Trig`). The only facts
assumed about them, in `Trig.Valid`, are cos 0 = 1 and sin 0 = 0.

The code has no scheduler that orders blocks by their dependencies:
`Graph` (dsp.js:158-165) runs the list exactly as given, and the model
follows the code. The ordering property is therefore proved about the two
concrete lists in `presentation-main.js`.

Host inputs are parameters:

- the analyser's time-domain capture;
- whether the slide director is at the demodulation step;
- the value of the demodulator's frequency callback, as a function of the
  frame (`tick`);
- `Math.cos` / `Math.sin`.

## Model

| member | source | states |
|---|---|---|
| Samples.PhaseIsProduct | dsp.js:133 | The phase after k steps of `phase += radiansPerSample` from 0 is exactly k * radiansPerSample. |
| DspSpec.HalfLimitCountsIterations | dsp.js:22-24 | An integer counter passes `i < min(in.length, out.length / 2)` (real division) exactly when it is below HalfLimit, so an odd output length still gets its last half pair. |
| DspSpec.ToComplexPairs | dsp.js:21-29 | For every i below the limit, output 2i is input i and output 2i+1 is 0. Every index from 2*limit on keeps its previous value. |
| DspSpec.ToComplexThreeSamples | dsp.js:21-29 | Three samples into a buffer of six give [a0,0,a1,0,a2,0]. |
| DspSpec.AMModulatorPairs | dsp.js:32-40 | Below the limit, even index 2i holds 1 + input i and odd indices hold 0. Every index from 2*limit on keeps its previous value. |
| DspSpec.FMShapeIsEvenLimit | dsp.js:44-47 | The lengths the FM model accepts are exactly those where `limit = min(in.length, out.length / 2)` (real division) is an even integer, so the midpoint `limit/2` is an integer index. |
| DspSpec.FMModulatorAtPair | dsp.js:47-56 | Pair k below the limit is (cos, sin) of the phase the loop has accumulated when it reaches k. |
| DspSpec.FwdIsScaledSum | dsp.js:46-51 | Running forward from the midpoint, the phase at k is deviation times the sum of the inputs from the midpoint up to and including k. |
| DspSpec.BwdIsScaledSum | dsp.js:52-57 | Running backward from the midpoint, the phase at k is minus deviation times the sum of the inputs from k up to the midpoint (exclusive). |
| DspSpec.FMPhaseIsClosed | dsp.js:45-57 | For numeric input, the phase of every pair is that closed form, restarting from 0 at the midpoint in both directions. |
| DspSpec.FMModulatorPairs | dsp.js:43-59 | For numeric input, output pair k below the limit is (cos phi, sin phi) with the closed-form phase phi. |
| DspSpec.FMModulatorUntouched | dsp.js:44-57 | Indices from 2*limit on keep their previous value. |
| DspSpec.FirOverwritesAll | dsp.js:68-83 | The result does not depend on the previous contents of the output: every index is written. |
| DspSpec.FirRegions | dsp.js:62-84 | Indices below start are 0. Indices in [start, limit) hold the tap sum from index i + delay*step. Indices from max(start, limit) to the end are 0. |
| DspSpec.FirSumNaN | dsp.js:74-77 | Once one tap reads outside the input, the accumulated sum is NaN. |
| DspSpec.FirReadsInBounds | dsp.js:64-76 | Index arithmetic only: with step 1 and a non-negative delay, every tap read `i + valdelay + j` of every computed index lies inside the input. |
| DspSpec.FirNumericInBounds | dsp.js:73-78 | With step 1 and a non-negative delay, every computed index in [start, limit) of a numeric input is a number: none of its reads falls outside the input. |
| DspSpec.FirComplexStepOverruns | dsp.js:66-77 | With step 2, no delay and at least three taps, the last computed index reads past the end of the input and comes out NaN. |
| DspSpec.FirNegativeDelayUnderruns | dsp.js:64-77 | With a negative delay, start is 0, and an index whose first read is below 0 comes out NaN. |
| DspSpec.FirUnitTapIsIdentity | dsp.js:62-84 | The single tap 1 with no delay and step 1 copies the input on [0, min(in.length - 1, out.length)). |
| DspSpec.AddIsElementwiseSum | dsp.js:87-94 | Below min(in1, in2, out) the output is the elementwise sum; above it the output is untouched. |
| DspSpec.MultiplyCommutes | dsp.js:97-105 | Swapping the two inputs gives the same output. |
| DspSpec.MultiplyOneByJ | dsp.js:100-103 | (1 + 0j)(0 + 1j) = 0 + 1j. |
| DspSpec.MultiplyEvenLimitRegion | dsp.js:98-103 | With an even limit, every index from min(in1, in2, out) on keeps its previous value. |
| DspSpec.MultiplyIsComplexProduct | dsp.js:100-103 | Pair k is the complex product (aI*bI - aQ*bQ, aQ*bI + aI*bQ) of the input pairs. |
| DspSpec.RotatorRotatesPair | dsp.js:108-121 | Output pair k is input pair k rotated by the angle k * radiansPerSample. |
| DspSpec.RotatorZeroIsIdentity | dsp.js:108-121 | With radiansPerSample 0, the output equals the numeric input on the first min(in.length, out.length) indices. |
| DspSpec.RotatorUntouched | dsp.js:109-118 | Indices from min(in.length, out.length) on keep their previous value, except the imaginary half of a final odd pair. |
| DspSpec.SiggenPairs | dsp.js:124-136 | Pair k is (cos(k*d), sin(k*d)) over the whole output. It starts at (1, 0), and it does not depend on the previous contents. |
| DspSpec.LinearPosition | dsp.js:144-146 | For output pair k, `position` has integer part k div f and fraction (k mod f)/f, which lies in [0, 1). |
| DspSpec.LinearOverrunIsNaN | dsp.js:149-150 | A pair whose next read is past the end of the input is NaN, even when the fraction is 0. |
| DspSpec.LinearReads | dsp.js:139-153 | When the output is f times an even input: the factor is f; every base read is inside the input; the next read overruns exactly for the last f output pairs, which are NaN. |
| DspSpec.LinearFactorOne | dsp.js:139-153 | With factor 1, the output equals a numeric input except for the final pair, which is NaN. |
| DspSpec.ToComplexIdempotent | dsp.js:23-28 | A second run over the same input leaves the output as the first run left it. |
| DspSpec.AMModulatorIdempotent | dsp.js:34-39 | A second run over the same input leaves the output as the first run left it. |
| DspSpec.FMModulatorIdempotent | dsp.js:45-58 | The phase is reset to 0 at the start of each loop, so a second run over the same input changes nothing. |
| DspSpec.AddIdempotent | dsp.js:89-93 | A second run over the same inputs changes nothing. |
| DspSpec.MultiplyIdempotent | dsp.js:99-104 | A second run over the same inputs changes nothing. |
| DspSpec.FirIdempotent | dsp.js:68-83 | The accumulator is reset for every index, so a second run over the same input changes nothing. |
| DspSpec.SiggenIdempotent | dsp.js:126-135 | The phase is reset on every run, so a second run at the same frequency changes nothing. |
| DspSpec.LinearIdempotent | dsp.js:142-152 | A second run over the same input changes nothing. |
| DspSpec.RotatorIdempotent | dsp.js:110-120 | The phase is reset on every run, so a second run over the same input changes nothing. |
| Dsp.ToComplex.constructor | dsp.js:21-22 | Captures the two buffers, given distinct input and output. |
| Dsp.ToComplex.Run | dsp.js:23-28 | The output array becomes exactly ToComplexOut of the input and the old output. |
| Dsp.AMModulator.constructor | dsp.js:32-33 | Captures the two buffers, given distinct input and output. |
| Dsp.AMModulator.Run | dsp.js:34-39 | The output array becomes exactly AMModulatorOut of the input and the old output. |
| Dsp.FMModulator.constructor | dsp.js:43-44 | Captures the buffers and the deviation, given that the JavaScript limit `Math.min(in.length, out.length / 2)` is an even integer (FMShape). |
| Dsp.FMModulator.Run | dsp.js:45-58 | The output array becomes exactly FMModulatorOut of the input and the old output. |
| Dsp.FMModulator.RunForward | dsp.js:46-51 | After the forward loop, [limit, 2*limit) holds its final pairs and every other index is unchanged. |
| Dsp.FMModulator.RunBackward | dsp.js:52-57 | After the backward loop, all of [0, 2*limit) holds its final pairs and every index from 2*limit on is unchanged. |
| Dsp.FMModulator.EmitPair | dsp.js:49-56 | Stores pair k as the cosine and sine of its phase and changes no other index. |
| Dsp.FIRFilter.constructor | dsp.js:62-67 | Captures the buffers and taps, and computes `valdelay`, `start`, `limit` and `end` as the source does. |
| Dsp.FIRFilter.Accumulate | dsp.js:74-77 | The inner loop returns the tap sum FirSum over `ntaps` taps for a positive step, and over none otherwise. |
| Dsp.FIRFilter.Run | dsp.js:68-83 | The output array becomes exactly FirOut of the input. |
| Dsp.Add.constructor | dsp.js:87-88 | Captures the three buffers, given an output distinct from both inputs. |
| Dsp.Add.Run | dsp.js:89-93 | The output array becomes exactly AddOut of the inputs and the old output. |
| Dsp.Multiply.constructor | dsp.js:97-98 | Captures the three buffers, given an output distinct from both inputs. |
| Dsp.Multiply.Run | dsp.js:99-104 | The output array becomes exactly MultiplyOut of the inputs and the old output, including the NaN of an odd final pair. |
| Dsp.Rotator.constructor | dsp.js:108-109 | Captures the buffers and the rotation rate, given distinct input and output. |
| Dsp.Rotator.Run | dsp.js:110-120 | The output array becomes exactly RotatorOut of the input and the old output. |
| Dsp.Siggen.constructor | dsp.js:124-125 | Captures the buffer and the frequency callback. |
| Dsp.Siggen.Run | dsp.js:126-135 | Asks the callback once, and the output becomes SiggenOut at the returned frequency. |
| Dsp.LinearInterpolator.constructor | dsp.js:139-141 | Captures the two buffers, given distinct input and output. |
| Dsp.LinearInterpolator.Interpolate | dsp.js:144-150 | The two values computed for even index j are entries j and j+1 of LinearOut. |
| Dsp.LinearInterpolator.Store | dsp.js:149-150 | Stores entries j and j+1 of LinearOut, drops the store at j+1 past the end, and changes no other index. |
| Dsp.LinearInterpolator.Run | dsp.js:142-152 | The output array becomes exactly LinearOut of the input and the old output. |
| DspGraph.OutcomeLocal | dsp.js:21-153 | A block's new output depends only on the contents of the buffers it captured. |
| DspGraph.RunBlock | dsp.js:162 | Calling a captured closure sets its output buffer to the block's outcome over its own buffers. |
| DspGraph.Graph.constructor | dsp.js:158-159 | Captures the block list and its length. |
| DspGraph.Graph.Run | dsp.js:160-164 | One invocation leaves the graph's buffers exactly as running each captured block once, in list order, from the old contents. |
| DspGraph.ExecAppend | dsp.js:161-163 | Running bs + cs is running bs, then cs. |
| DspGraph.ExecFrame | dsp.js:161-163 | A buffer that no block of the list touches keeps whatever value it has. |
| DspGraph.ExtendOrdered | presentation-main.js:93-105 | Appending a block whose output no earlier block touches keeps a list producer-before-consumer and single-writer. |
| DspGraph.WiredIsOrdered | presentation-main.js:93-118 | A list in which each block writes a buffer no earlier block uses is producer-before-consumer and single-writer. |
| DspGraph.BlockIdempotent | dsp.js:23-152 | Running any block twice in a row has the effect of running it once. |
| DspGraph.ExecIdempotent | dsp.js:158-165 | For a producer-before-consumer, single-writer list, a second invocation over unchanged sources leaves every buffer as the first left it. |
| PresentationMain.ZeroBuffer | presentation-main.js:82-92 | `new Float32Array(n)` gives a fresh buffer of n zeros. |
| PresentationMain.AttachFir | presentation-main.js:103-104 | Appends an FIRFilter with the given input, step, delay and taps, over a new output of n samples, and keeps the wiring invariant. |
| PresentationMain.AttachSiggen | presentation-main.js:100 | Appends a Siggen with the given callback, over a new output of n samples, and keeps the wiring invariant. |
| PresentationMain.WireModulation | presentation-main.js:94-97 | The AM and FM modulators of `audioarray` (deviation 0.75) and the two interpolators to 5 times the length. |
| PresentationMain.WireCarriers | presentation-main.js:98-99 | The two rotators by chfreq 0.30 over the interpolated signals. |
| PresentationMain.WireDemodulator | presentation-main.js:100-101 | The demodulation carrier with the given callback, and the FM carrier multiplied by it. |
| PresentationMain.WireFilters | presentation-main.js:102-104 | The complex audio and its 27-tap low- and high-pass filters, with step 2 and delay -13. |
| PresentationMain.BuildMainGraph | presentation-main.js:93-105 | Graph `g` has exactly the eleven listed blocks. It is producer-before-consumer and single-writer. `audioarray` is read and never written. |
| PresentationMain.WireTones | presentation-main.js:113-115 | The tones of 0.3 and 10 radians per sample and their sum, over new buffers. |
| PresentationMain.BuildTwoSignalGraph | presentation-main.js:107-117 | The two-signal graph has exactly the five listed blocks, over new buffers. It is producer-before-consumer and single-writer. |
| PresentationMain.RunTwoSignalGraph | presentation-main.js:107-118 | After the single load-time run, running the two-signal graph again would change none of its buffers. |
| PresentationMain.TriggerIndex | presentation-main.js:713-717 | The search stops at the first rising edge in [from, limit), at limit if there is none, and at from if the range is empty. |
| PresentationMain.ClampIndex | presentation-main.js:718 | A `subarray` bound inside the array is kept. A negative one counts from the end, clamped at 0. One past the end is clamped to the length. |
| PresentationMain.Subarray | presentation-main.js:718 | For bounds inside the array, `subarray` is exactly that slice, and it is never longer than the array. |
| PresentationMain.SetFrom | presentation-main.js:718 | `set` copies the source over the front of the target and keeps the rest. |
| PresentationMain.TriggerWindow | presentation-main.js:710-718 | The window around the trigger point has the length of the display buffer. |
| PresentationMain.WindowInCapture | presentation-main.js:710-718 | The trigger index lies in [outLengthHalf, limit]; the window [i - half, i + half) lies inside the capture; it has the display's length, so `set` replaces the whole display by it. |
| PresentationMain.TriggerWindowCentred | presentation-main.js:713-718 | If the capture has a rising edge in the searched range, the display shows one at its centre: a sample at most 0 followed by a positive one. |
| PresentationMain.OnKey | presentation-main.js:693-702 | Space toggles `paused`. 'T' sets `leveltrigger` and clears `paused`. Any other key changes nothing. |
| PresentationMain.SpaceTwice | presentation-main.js:694-696 | Pressing space twice restores both flags. |
| PresentationMain.AfterLevelScan | presentation-main.js:726-735 | The scan pauses exactly when the trigger is armed and some sample exceeds 0.5, and then disarms it. Otherwise both flags stay as they were. |
| PresentationMain.LevelTriggerFiresOnce | presentation-main.js:726-735 | An armed trigger that fires leaves (paused, disarmed), and the next scan leaves that state alone. |
| PresentationMain.DisarmedScanIsIdle | presentation-main.js:726 | Without an armed trigger, the scan changes nothing. |
| PresentationMain.SetUp | presentation-main.js:55-118 | Loading creates a zeroed display buffer and a capture buffer of fftSize, and wires `g` over the display, which `g` reads and never writes. The capture buffer is not in `g`. It builds the two-signal graph over buffers of its own and runs it once, which leaves every one of its buffers as a second run would. |
| PresentationMain.Load | presentation-main.js:52-118 | After loading, the zeroed display feeds graph `g`, the two-signal graph has its five listed blocks and is settled, and both flags are clear. |
| PresentationMain.Assemble | presentation-main.js:691-692 | The presentation state holds the given buffers and graphs with both flags clear, and the settled two-signal graph stays settled. |
| PresentationMain.Presentation.constructor | presentation-main.js:691-692 | Both flags start false. |
| PresentationMain.Presentation.KeyDown | presentation-main.js:693-702 | The flags become OnKey of the old flags and the key code. |
| PresentationMain.Presentation.FindTrigger | presentation-main.js:713-717 | The scanning loop with `break` returns TriggerIndex of the capture. |
| PresentationMain.Presentation.CopyWindow | presentation-main.js:718 | `audioarray` becomes SetFrom of its old contents and the `subarray` of the capture. |
| PresentationMain.Presentation.LevelScan | presentation-main.js:726-735 | The downward scan leaves the flags equal to AfterLevelScan of the old flags and the displayed samples. |
| PresentationMain.Presentation.Receive | presentation-main.js:709 | The capture buffer holds exactly the new capture. |
| PresentationMain.Presentation.Capture | presentation-main.js:709-718 | The capture buffer holds the new capture, and `audioarray` holds the window centred on its trigger point. |
| PresentationMain.Presentation.CaptureUnlessPaused | presentation-main.js:706-720 | While paused, both buffers are unchanged. Otherwise they are as Capture leaves them. No other buffer of `g` changes. |
| PresentationMain.Presentation.RunUnlessPaused | presentation-main.js:722-724 | Graph `g` runs once exactly when not paused or at the demodulation step; otherwise its buffers are unchanged. It never writes the display or the capture. |
| PresentationMain.Presentation.Signal | presentation-main.js:706-724 | The capture and the graph run of one frame, before the level trigger. |
| PresentationMain.Presentation.UpdateFFT | presentation-main.js:705-736 | One frame: while paused the display is unchanged; otherwise it holds the trigger window. `g` runs over it unless paused off the demodulation step. The flags end as AfterLevelScan of the displayed samples. |

## Left out

- `pres.js` and the rest of `presentation-main.js` are not modelled. That covers MathBox rendering, the slide script and director, the captions, URL handling, `reportFailure`, and the `requestAnimationFrame` loop (presentation-main.js:738-742). They are UI with no bearing on the buffers.
- The arrow-key slide handler (presentation-main.js:652-663) also calls `g()` after moving the director. That extra run of graph `g` outside `updateFFT` is not modelled. `Graph.Run` states the effect of any one such run.
- The AudioContext, the analyser node and `getUserMedia` (presentation-main.js:45-71) are host I/O. `getFloatTimeDomainData` is the `capture` parameter of `UpdateFFT`. `getFloatFrequencyData` fills `fftarray` (presentation-main.js:54, 708), which no line of the program reads; it is left out.
- Floating point is not modelled. Samples are exact reals, so single-precision storage, rounding in the phase accumulators, and overflow to infinity are absent. `Math.cos` and `Math.sin` are uninterpreted except at 0.
- The frequency callback of the demodulation Siggen (presentation-main.js:100) reads the slide director's clock. It is the parameter `demodFrequency`, a function of the frame number. The director test at presentation-main.js:722 is the parameter `atDemodStep`.
- `console.log` at presentation-main.js:700 and 731 is left out, as output only.
- Dsp.FMModulator.constructor: requires the JavaScript limit `min(in.length, out.length / 2)` to be an even integer (FMShapeIsEvenLimit). The other lengths are not modelled:
  - For an odd integer limit, the loops run at half-integer indices, whose reads are `undefined`. JavaScript then stores NaN at the output indices 1 to 2*limit that lie inside the buffer, and leaves index 0 alone.
  - For a fractional limit (an odd output length less than twice the input length), every store goes to a non-index property, and the output is unchanged.
- Each block constructor requires its output buffer to differ from its inputs. The JavaScript accepts aliased buffers, whose in-place results are not modelled.
- PresentationMain.Presentation.CopyWindow: requires the source window to fit the display. The `RangeError` that `set` throws otherwise is not modelled. Capture and UpdateFFT always meet this requirement, by WindowInCapture.
