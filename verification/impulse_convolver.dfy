/** ImpulseConvolverEffect (ImpulseConvolver.cpp): reloading the impulse and
    the per-buffer segment pipeline. Input samples are collected into a
    SEG_SIZE block; when a block is full both channels are transformed,
    multiplied by the impulse spectrum, transformed back and overlap-added,
    and the output side plays back the previous result one segment later. */
module ImpulseConvolver {
  import opened Wrappers
  import opened Numeric
  import opened ConvolverBuffers

  /** One stereo sample frame (sampleFrame). */
  datatype Frame = Frame(left: real, right: real)

  /** FFTW's r2r plans as functions on the n input samples: `forward` is
      R2HC and `inverse` is HC2R, both unnormalised. */
  datatype Fft = Fft(forward: seq<real> -> seq<real>, inverse: seq<real> -> seq<real>)

  function Zeros(n: nat): (r: seq<real>)
    ensures |r| == n && forall i :: 0 <= i < n ==> r[i] == 0.0
  {
    seq(n, _ => 0.0)
  }

  /** Executing a length-n plan writes exactly n outputs. */
  function Run(f: seq<real> -> seq<real>, x: seq<real>): (y: seq<real>)
    ensures |y| == |x|
  {
    var z := f(x);
    if |z| >= |x| then z[..|x|] else z + Zeros(|x| - |z|)
  }

  /** The effect's engine state: the segment counter, the two ring
      pointers, both channels' buffers and the impulse and transform
      lengths. */
  datatype Convolver = Convolver(
    count: nat,
    inPtr: nat,
    outPtr: nat,
    left: ImpulseData,
    right: ImpulseData,
    impLength: int,
    fftLength: nat)

  /** Between calls: the buffers have their allocated size, the counter is
      0 or 1 and both pointers are inside one segment. */
  predicate Valid(c: Convolver) {
    && Sized(c.left) && Sized(c.right)
    && c.count <= 1 && c.inPtr < SegSize && c.outPtr < SegSize
  }

  /** Valid, with a transform length set by a reload. */
  predicate Ready(c: Convolver) {
    Valid(c) && GoodFftLength(c.fftLength)
  }

  /** Past the first segment the time block is zero, so each transform sees
      one segment of input followed by zero padding. */
  predicate Padded(c: Convolver)
    requires Valid(c)
  {
    forall i :: SegSize <= i < MaxFftSize ==> c.left.blockTime[i] == 0.0 && c.right.blockTime[i] == 0.0
  }

  /** The parts of the state that only a reload changes. */
  predicate SameLoad(c: Convolver, r: Convolver) {
    && r.fftLength == c.fftLength && r.impLength == c.impLength
    && r.left.impulseFreq == c.left.impulseFreq && r.right.impulseFreq == c.right.impulseFreq
  }

  // ---------------------------------------------------------------- reload

  /** The control values the effect reads: the loaded impulse, the engine
      sample rate, the frequency knob (-2..2) and the gain knob (0..100). */
  datatype Controls = Controls(impulse: seq<Frame>, sampleRate: nat, freq: real, gain: real)

  predicate ControlsOk(k: Controls) {
    k.sampleRate > 0 && -2.0 <= k.freq <= 2.0 && 0.0 <= k.gain <= 100.0
  }

  /** An impulse is loaded exactly when the transform length is usable. */
  predicate Consistent(c: Convolver, k: Controls) {
    Valid(c) && (|k.impulse| > 0 ==> GoodFftLength(c.fftLength))
  }

  function Lefts(xs: seq<Frame>): (r: seq<real>)
    ensures |r| == |xs| && forall i :: 0 <= i < |xs| ==> r[i] == xs[i].left
  {
    seq(|xs|, i requires 0 <= i < |xs| => xs[i].left)
  }

  function Rights(xs: seq<Frame>): (r: seq<real>)
    ensures |r| == |xs| && forall i :: 0 <= i < |xs| ==> r[i] == xs[i].right
  {
    seq(|xs|, i requires 0 <= i < |xs| => xs[i].right)
  }

  /** The buffers a reload zeroes: the time and frequency blocks and op in
      full, the overlap tail except its last segment, and the first segment
      of the output cache. */
  function ResetData(d: ImpulseData): (r: ImpulseData)
    requires Sized(d)
    ensures Sized(r) && r.impulseFreq == d.impulseFreq
    ensures forall i :: 0 <= i < MaxFftSize ==> r.blockTime[i] == 0.0 && r.blockFreq[i] == 0.0 && r.op[i] == 0.0
    ensures forall i :: 0 <= i < MaxFftSize - SegSize ==> r.overlap[i] == 0.0
    ensures r.overlap[MaxFftSize - SegSize..] == d.overlap[MaxFftSize - SegSize..]
    ensures forall i :: 0 <= i < SegSize ==> r.opc[i] == 0.0
    ensures r.opc[SegSize..] == d.opc[SegSize..]
  {
    d.(blockTime := Zeros(MaxFftSize), blockFreq := Zeros(MaxFftSize), op := Zeros(MaxFftSize),
       overlap := Zeros(MaxFftSize - SegSize) + d.overlap[MaxFftSize - SegSize..],
       opc := Zeros(SegSize) + d.opc[SegSize..])
  }

  /** The state right after a reload. */
  predicate IsReset(c: Convolver)
    requires Valid(c)
  {
    && c.count == 0 && c.inPtr == 0 && c.outPtr == 0
    && (forall i :: 0 <= i < MaxFftSize ==>
          c.left.blockTime[i] == 0.0 && c.left.blockFreq[i] == 0.0 && c.left.op[i] == 0.0
          && c.right.blockTime[i] == 0.0 && c.right.blockFreq[i] == 0.0 && c.right.op[i] == 0.0)
    && (forall i :: 0 <= i < MaxFftSize - SegSize ==> c.left.overlap[i] == 0.0 && c.right.overlap[i] == 0.0)
    && (forall i :: 0 <= i < SegSize ==> c.left.opc[i] == 0.0 && c.right.opc[i] == 0.0)
  }

  /** The impulse spectrum of one channel: the resampled channel, cut or
      padded to n samples and transformed; entries from n on keep their old
      values. */
  function ImpulseSpectrum(fx: Fft, channel: seq<real>, ratio: real, n: nat, old_: seq<real>): (r: seq<real>)
    requires ratio > 0.0 && n <= |old_|
    ensures |r| == |old_|
  {
    Run(fx.forward, Resample(channel, ratio, n)) + old_[n..]
  }

  /** updateImpulse: with an impulse loaded, recompute the impulse and
      transform lengths and both impulse spectra; in every case, reset the
      buffers, the counter and both pointers. `pow2` is the frequency knob's
      powf(2, freq). */
  function UpdateImpulse(c: Convolver, k: Controls, fx: Fft, pow2: real): (r: Convolver)
    requires Valid(c) && ControlsOk(k) && pow2 > 0.0
    ensures Consistent(r, k) && IsReset(r) && Padded(r)
    ensures |k.impulse| == 0 ==> SameLoad(c, r)
    ensures |k.impulse| > 0 ==>
      var ratio := FreqRatio(k.sampleRate, pow2);
      && r.impLength == ImpLength(|k.impulse|, ratio)
      && r.fftLength == FftLength(r.impLength)
      && r.left.impulseFreq[..r.fftLength] == Run(fx.forward, Resample(Lefts(k.impulse), ratio, r.fftLength))
      && r.right.impulseFreq[..r.fftLength] == Run(fx.forward, Resample(Rights(k.impulse), ratio, r.fftLength))
      && r.left.impulseFreq[r.fftLength..] == c.left.impulseFreq[r.fftLength..]
      && r.right.impulseFreq[r.fftLength..] == c.right.impulseFreq[r.fftLength..]
    ensures r.left.overlap[MaxFftSize - SegSize..] == c.left.overlap[MaxFftSize - SegSize..]
    ensures r.right.overlap[MaxFftSize - SegSize..] == c.right.overlap[MaxFftSize - SegSize..]
    ensures r.left.opc[SegSize..] == c.left.opc[SegSize..]
    ensures r.right.opc[SegSize..] == c.right.opc[SegSize..]
  {
    var loaded :=
      if |k.impulse| > 0 then
        var ratio := FreqRatio(k.sampleRate, pow2);
        var impLength := ImpLength(|k.impulse|, ratio);
        var n := FftLength(impLength);
        FftLengthInRange(impLength);
        c.(impLength := impLength, fftLength := n,
           left := c.left.(impulseFreq := ImpulseSpectrum(fx, Lefts(k.impulse), ratio, n, c.left.impulseFreq)),
           right := c.right.(impulseFreq := ImpulseSpectrum(fx, Rights(k.impulse), ratio, n, c.right.impulseFreq)))
      else c;
    Convolver(0, 0, 0, ResetData(loaded.left), ResetData(loaded.right), loaded.impLength, loaded.fftLength)
  }

  /** The constructor: counter and pointers start at 0 and updateImpulse
      runs with no impulse loaded yet (gain 50, frequency 0). The freshly
      allocated buffers and the never-set lengths are whatever the caller
      supplies. */
  function Create(sampleRate: nat, left0: ImpulseData, right0: ImpulseData, impLength0: int, fftLength0: nat,
                  fx: Fft, pow2: real): (r: Convolver)
    requires sampleRate > 0 && Sized(left0) && Sized(right0) && pow2 > 0.0
    ensures Consistent(r, InitialControls(sampleRate)) && IsReset(r) && Padded(r)
  {
    UpdateImpulse(Convolver(0, 0, 0, left0, right0, impLength0, fftLength0), InitialControls(sampleRate), fx, pow2)
  }

  function InitialControls(sampleRate: nat): Controls {
    Controls([], sampleRate, 0.0, 50.0)
  }

  /** A reload does not depend on the state it replaces beyond what it
      keeps: reloading twice is reloading once. */
  lemma UpdateImpulseIdempotent(c: Convolver, k: Controls, fx: Fft, pow2: real)
    requires Valid(c) && ControlsOk(k) && pow2 > 0.0
    ensures UpdateImpulse(UpdateImpulse(c, k, fx, pow2), k, fx, pow2) == UpdateImpulse(c, k, fx, pow2)
  {
    var r := UpdateImpulse(c, k, fx, pow2);
    var r2 := UpdateImpulse(r, k, fx, pow2);
    assert r2.left == r.left by {
      SeqExt(r2.left.overlap, r.left.overlap);
      SeqExt(r2.left.opc, r.left.opc);
    }
    assert r2.right == r.right by {
      SeqExt(r2.right.overlap, r.right.overlap);
      SeqExt(r2.right.opc, r.right.opc);
    }
  }

  lemma SeqExt(a: seq<real>, b: seq<real>)
    requires |a| == |b| && forall i :: 0 <= i < |a| ==> a[i] == b[i]
    ensures a == b
  {
  }

  // ------------------------------------------------------------ one segment

  /** Lines 210-243 for one channel: transform the time block, multiply by
      the impulse spectrum, transform back into op, and overlap-add. */
  function CompleteSegment(d: ImpulseData, fx: Fft, n: nat): (r: ImpulseData)
    requires Sized(d) && GoodFftLength(n)
    ensures Sized(r)
    ensures r.impulseFreq == d.impulseFreq && r.blockTime == d.blockTime && r.opc == d.opc
  {
    var spectrum := Run(fx.forward, d.blockTime[..n]) + d.blockFreq[n..];
    var product := SpectralProduct(spectrum, d.impulseFreq, n);
    var op := Run(fx.inverse, product[..n]) + d.op[n..];
    var (op', overlap') := OverlapAdd(op, d.overlap, n);
    d.(blockFreq := product, op := op', overlap := overlap')
  }

  /** The inverse transform of the product a completed segment adds into
      op. */
  function SegmentOutput(d: ImpulseData, fx: Fft, n: nat): (r: seq<real>)
    requires Sized(d) && GoodFftLength(n)
    ensures |r| == MaxFftSize
    ensures r[n..] == d.op[n..]
  {
    var spectrum := Run(fx.forward, d.blockTime[..n]) + d.blockFreq[n..];
    Run(fx.inverse, SpectralProduct(spectrum, d.impulseFreq, n)[..n]) + d.op[n..]
  }

  /** Completing a segment is one overlap-add step on that segment's output:
      successive segments therefore sum as OverlapRunSums describes. */
  lemma CompleteSegmentOverlapAdds(d: ImpulseData, fx: Fft, n: nat)
    requires Sized(d) && GoodFftLength(n)
    ensures var r := CompleteSegment(d, fx, n);
      (r.op, r.overlap) == OverlapAdd(SegmentOutput(d, fx, n), d.overlap, n)
  {
  }

  // --------------------------------------------------------- sample steps

  /** Lines 205-252 for one input frame: store it at in_ptr; when that
      fills the segment, run both channels' segment step, wrap in_ptr and,
      on the first completed segment since a reload, set the counter and
      reset out_ptr. */
  function InputSample(c: Convolver, fx: Fft, x: Frame): (r: Convolver)
    requires Ready(c)
    ensures Ready(r) && SameLoad(c, r)
    ensures r.inPtr == (c.inPtr + 1) % SegSize
    ensures r.count == (if c.inPtr + 1 == SegSize then 1 else c.count)
    ensures r.outPtr == (if c.inPtr + 1 == SegSize && c.count == 0 then 0 else c.outPtr)
  {
    var l := c.left.(blockTime := c.left.blockTime[c.inPtr := x.left]);
    var rt := c.right.(blockTime := c.right.blockTime[c.inPtr := x.right]);
    if c.inPtr + 1 < SegSize then
      c.(inPtr := c.inPtr + 1, left := l, right := rt)
    else
      c.(inPtr := 0, count := 1, outPtr := if c.count == 0 then 0 else c.outPtr,
         left := CompleteSegment(l, fx, c.fftLength), right := CompleteSegment(rt, fx, c.fftLength))
  }

  /** The frame lands at in_ptr of both time blocks and nothing else in them
      changes; the output cache is never touched, and op only when the
      segment completes. */
  lemma InputSampleStores(c: Convolver, fx: Fft, x: Frame)
    requires Ready(c)
    ensures var r := InputSample(c, fx, x);
      && r.left.blockTime == c.left.blockTime[c.inPtr := x.left]
      && r.right.blockTime == c.right.blockTime[c.inPtr := x.right]
      && r.left.opc == c.left.opc && r.right.opc == c.right.opc
      && (c.inPtr + 1 < SegSize ==> r.left.op == c.left.op && r.right.op == c.right.op)
  {
  }

  /** Filling the segment runs the segment step on both channels. */
  lemma InputSampleCompletes(c: Convolver, fx: Fft, x: Frame)
    requires Ready(c) && c.inPtr + 1 == SegSize
    ensures var r := InputSample(c, fx, x);
      && r.left == CompleteSegment(c.left.(blockTime := c.left.blockTime[c.inPtr := x.left]), fx, c.fftLength)
      && r.right == CompleteSegment(c.right.(blockTime := c.right.blockTime[c.inPtr := x.right]), fx, c.fftLength)
  {
  }

  /** The dry and wet levels from the effect base class and the output
      scale gain * 0.01 / fftLength. */
  datatype Levels = Levels(dry: real, wet: real, coef: real)

  function LevelsFor(dry: real, wet: real, gain: real, fftLength: nat): (m: Levels)
    requires fftLength > 0
    ensures m.dry == dry && m.wet == wet
  {
    Levels(dry, wet, gain * 0.01 / fftLength as real)
  }

  /** The output scale undoes the unnormalised transform pair's factor of
      fftLength and applies the gain knob as a percentage. */
  lemma CoefUndoesTransformScale(dry: real, wet: real, gain: real, fftLength: nat)
    requires fftLength > 0
    ensures LevelsFor(dry, wet, gain, fftLength).coef * fftLength as real == gain * 0.01
  {
  }

  /** The mixed output frame for input x when the cached wet samples are
      wl and wr. */
  function Mixed(m: Levels, x: Frame, wl: real, wr: real): Frame {
    Frame(m.dry * x.left + m.wet * (wl * m.coef), m.dry * x.right + m.wet * (wr * m.coef))
  }

  /** Lines 257-278 for one output frame: mix the cached wet sample at
      out_ptr into the input frame; when out_ptr wraps, refresh the cache
      from the first segment of op. */
  function OutputSample(c: Convolver, m: Levels, x: Frame): (r: (Convolver, Frame))
    requires Valid(c)
    ensures Valid(r.0) && SameLoad(c, r.0)
    ensures r.0.outPtr == (c.outPtr + 1) % SegSize
    ensures r.0.inPtr == c.inPtr && r.0.count == c.count
  {
    var y := Mixed(m, x, c.left.opc[c.outPtr], c.right.opc[c.outPtr]);
    if c.outPtr + 1 < SegSize then (c.(outPtr := c.outPtr + 1), y)
    else
      (c.(outPtr := 0,
          left := c.left.(opc := c.left.op[..SegSize] + c.left.opc[SegSize..]),
          right := c.right.(opc := c.right.op[..SegSize] + c.right.opc[SegSize..])), y)
  }

  /** The written frame is d * in + w * (cached wet sample * coef), and the
      input side (time blocks and op) is left alone. */
  lemma OutputSampleMixes(c: Convolver, m: Levels, x: Frame)
    requires Valid(c)
    ensures var r := OutputSample(c, m, x);
      && r.1 == Mixed(m, x, c.left.opc[c.outPtr], c.right.opc[c.outPtr])
      && r.0.left.op == c.left.op && r.0.right.op == c.right.op
      && r.0.left.blockTime == c.left.blockTime && r.0.right.blockTime == c.right.blockTime
  {
  }

  /** The cache is refreshed from op exactly when out_ptr wraps. */
  lemma OutputSampleRefreshes(c: Convolver, m: Levels, x: Frame)
    requires Valid(c)
    ensures var r := OutputSample(c, m, x).0;
      && (c.outPtr + 1 < SegSize ==> r.left.opc == c.left.opc && r.right.opc == c.right.opc)
      && (c.outPtr + 1 == SegSize ==>
            r.left.opc[..SegSize] == c.left.op[..SegSize] && r.right.opc[..SegSize] == c.right.op[..SegSize]
            && r.left.opc[SegSize..] == c.left.opc[SegSize..] && r.right.opc[SegSize..] == c.right.opc[SegSize..])
  {
  }

  // ------------------------------------------------------------- chunks

  /** The input loop over one chunk of at most SEG_SIZE frames. */
  function FeedInput(c: Convolver, fx: Fft, xs: seq<Frame>): (r: Convolver)
    requires Ready(c)
    ensures Ready(r) && SameLoad(c, r)
    decreases |xs|
  {
    if xs == [] then c else FeedInput(InputSample(c, fx, xs[0]), fx, xs[1..])
  }

  /** in_ptr advances by the chunk length modulo SEG_SIZE, the counter is set
      once a segment completes, and out_ptr is reset only by the first
      completed segment since the reload. */
  lemma {:induction false} FeedInputPointers(c: Convolver, fx: Fft, xs: seq<Frame>)
    requires Ready(c) && |xs| <= SegSize
    ensures var r := FeedInput(c, fx, xs);
      && r.inPtr == (c.inPtr + |xs|) % SegSize
      && r.count == (if c.inPtr + |xs| >= SegSize then 1 else c.count)
      && r.outPtr == (if c.count == 0 && c.inPtr + |xs| >= SegSize then 0 else c.outPtr)
    decreases |xs|
  {
    if xs != [] {
      FeedInputPointers(InputSample(c, fx, xs[0]), fx, xs[1..]);
      PointerStep(c.inPtr, |xs| - 1);
    }
  }

  /** The input loop never touches the output cache, and op changes only
      when a segment completes. */
  lemma {:induction false} FeedInputKeepsOutput(c: Convolver, fx: Fft, xs: seq<Frame>)
    requires Ready(c)
    ensures var r := FeedInput(c, fx, xs);
      && r.left.opc == c.left.opc && r.right.opc == c.right.opc
      && (c.inPtr + |xs| < SegSize ==> r.left.op == c.left.op && r.right.op == c.right.op)
    decreases |xs|
  {
    if xs != [] {
      var c1 := InputSample(c, fx, xs[0]);
      InputSampleStores(c, fx, xs[0]);
      FeedInputKeepsOutput(c1, fx, xs[1..]);
    }
  }

  /** Input only ever lands in the first segment of the time block. */
  lemma {:induction false} FeedInputKeepsPadding(c: Convolver, fx: Fft, xs: seq<Frame>)
    requires Ready(c) && Padded(c)
    ensures Padded(FeedInput(c, fx, xs))
    decreases |xs|
  {
    if xs != [] {
      var c1 := InputSample(c, fx, xs[0]);
      InputSampleStores(c, fx, xs[0]);
      FeedInputKeepsPadding(c1, fx, xs[1..]);
    }
  }

  /** The output loop over one chunk: the mixed frames and the state after. */
  function DrainOutput(c: Convolver, m: Levels, xs: seq<Frame>): (r: (Convolver, seq<Frame>))
    requires Valid(c)
    ensures Valid(r.0) && SameLoad(c, r.0) && |r.1| == |xs|
    decreases |xs|
  {
    if xs == [] then (c, [])
    else
      var (c1, y) := OutputSample(c, m, xs[0]);
      var (c2, ys) := DrainOutput(c1, m, xs[1..]);
      (c2, [y] + ys)
  }

  /** The output loop advances out_ptr and changes nothing on the input
      side. */
  lemma {:induction false} DrainOutputPointers(c: Convolver, m: Levels, xs: seq<Frame>)
    requires Valid(c)
    ensures var r := DrainOutput(c, m, xs).0;
      && r.outPtr == (c.outPtr + |xs|) % SegSize
      && r.inPtr == c.inPtr && r.count == c.count
    decreases |xs|
  {
    if xs != [] {
      DrainOutputPointers(OutputSample(c, m, xs[0]).0, m, xs[1..]);
      PointerStep(c.outPtr, |xs| - 1);
    }
  }

  /** The output loop leaves the input side (time blocks and op) alone. */
  lemma {:induction false} DrainOutputKeepsInput(c: Convolver, m: Levels, xs: seq<Frame>)
    requires Valid(c)
    ensures var r := DrainOutput(c, m, xs).0;
      && r.left.op == c.left.op && r.right.op == c.right.op
      && r.left.blockTime == c.left.blockTime && r.right.blockTime == c.right.blockTime
    decreases |xs|
  {
    if xs != [] {
      OutputSampleMixes(c, m, xs[0]);
      DrainOutputKeepsInput(OutputSample(c, m, xs[0]).0, m, xs[1..]);
    }
  }

  /** Until out_ptr wraps, frame t of the chunk mixes in the cached wet
      sample at out_ptr + t. */
  lemma {:induction false} DrainOutputReads(c: Convolver, m: Levels, xs: seq<Frame>)
    requires Valid(c)
    ensures var out := DrainOutput(c, m, xs).1;
      forall t :: 0 <= t < |xs| && c.outPtr + t < SegSize ==>
        out[t] == Mixed(m, xs[t], c.left.opc[c.outPtr + t], c.right.opc[c.outPtr + t])
    decreases |xs|
  {
    if xs != [] {
      var c1 := OutputSample(c, m, xs[0]).0;
      OutputSampleMixes(c, m, xs[0]);
      OutputSampleRefreshes(c, m, xs[0]);
      DrainOutputReads(c1, m, xs[1..]);
    }
  }

  /** A chunk that ends exactly at the segment boundary leaves the first
      segment of op in the output cache. */
  lemma {:induction false} DrainOutputRefreshes(c: Convolver, m: Levels, xs: seq<Frame>)
    requires Valid(c) && c.outPtr + |xs| == SegSize
    ensures var r := DrainOutput(c, m, xs).0;
      r.left.opc[..SegSize] == c.left.op[..SegSize] && r.right.opc[..SegSize] == c.right.op[..SegSize]
    decreases |xs|
  {
    var c1 := OutputSample(c, m, xs[0]).0;
    OutputSampleMixes(c, m, xs[0]);
    OutputSampleRefreshes(c, m, xs[0]);
    if |xs| > 1 {
      DrainOutputRefreshes(c1, m, xs[1..]);
    }
  }

  /** One turn of the outer loop: the input loop, then the output loop, over
      the same chunk. */
  function Chunk(c: Convolver, fx: Fft, m: Levels, xs: seq<Frame>): (r: (Convolver, seq<Frame>))
    requires Ready(c)
    ensures Ready(r.0) && SameLoad(c, r.0) && |r.1| == |xs|
  {
    DrainOutput(FeedInput(c, fx, xs), m, xs)
  }

  /** The outer loop: chunks of SEG_SIZE frames from the start of the buffer,
      the last one possibly shorter. */
  function ProcessChunks(c: Convolver, fx: Fft, m: Levels, buf: seq<Frame>): (r: (Convolver, seq<Frame>))
    requires Ready(c)
    ensures Ready(r.0) && SameLoad(c, r.0) && |r.1| == |buf|
    decreases |buf|
  {
    if buf == [] then (c, [])
    else
      var k := ChunkLength(|buf|);
      var r1 := Chunk(c, fx, m, buf[..k]);
      var r2 := ProcessChunks(r1.0, fx, m, buf[k..]);
      (r2.0, r1.1 + r2.1)
  }

  function ChunkLength(frames: nat): (k: nat)
    requires frames > 0
    ensures 0 < k <= frames && k <= SegSize && (k == SegSize || k == frames)
  {
    if frames < SegSize then frames else SegSize
  }

  /** The counter and the two pointers. */
  datatype Pointers = Pointers(count: nat, inPtr: nat, outPtr: nat)

  function PointersOf(c: Convolver): Pointers {
    Pointers(c.count, c.inPtr, c.outPtr)
  }

  /** Where the counter and pointers end up after `frames` frames: in_ptr
      advances by the frame count modulo SEG_SIZE, the counter is 1 once any
      segment has completed since the reload, and out_ptr advances likewise,
      except that the first completed segment (which always falls in the
      first chunk) restarts it at 0. */
  function PointersAfter(p: Pointers, frames: nat): Pointers {
    Pointers(
      if p.inPtr + frames >= SegSize then 1 else p.count,
      (p.inPtr + frames) % SegSize,
      if p.count == 0 && p.inPtr + frames >= SegSize then frames % SegSize else (p.outPtr + frames) % SegSize)
  }

  lemma {:induction false} ProcessChunksPointers(c: Convolver, fx: Fft, m: Levels, buf: seq<Frame>)
    requires Ready(c)
    ensures PointersOf(ProcessChunks(c, fx, m, buf).0) == PointersAfter(PointersOf(c), |buf|)
    decreases |buf|
  {
    if buf != [] {
      var k := ChunkLength(|buf|);
      var c1 := Chunk(c, fx, m, buf[..k]).0;
      ChunkPointers(c, fx, m, buf[..k]);
      ProcessChunksPointers(c1, fx, m, buf[k..]);
      RestPointers(PointersOf(c), k, |buf|);
    }
  }

  /** The zero padding of the time blocks survives a call. */
  lemma {:induction false} ProcessChunksKeepsPadding(c: Convolver, fx: Fft, m: Levels, buf: seq<Frame>)
    requires Ready(c)
    ensures Padded(c) ==> Padded(ProcessChunks(c, fx, m, buf).0)
    decreases |buf|
  {
    if buf != [] && Padded(c) {
      var k := ChunkLength(|buf|);
      var c1 := Chunk(c, fx, m, buf[..k]).0;
      ChunkKeepsPadding(c, fx, m, buf[..k]);
      ProcessChunksKeepsPadding(c1, fx, m, buf[k..]);
    }
  }

  /** The pointers and the counter after one chunk. */
  lemma ChunkPointers(c: Convolver, fx: Fft, m: Levels, xs: seq<Frame>)
    requires Ready(c) && 0 < |xs| <= SegSize
    ensures PointersOf(Chunk(c, fx, m, xs).0) == PointersAfter(PointersOf(c), |xs|)
  {
    var f := FeedInput(c, fx, xs);
    FeedInputPointers(c, fx, xs);
    DrainOutputPointers(f, m, xs);
  }

  /** One chunk keeps the zero padding of the time blocks. */
  lemma ChunkKeepsPadding(c: Convolver, fx: Fft, m: Levels, xs: seq<Frame>)
    requires Ready(c)
    ensures Padded(c) ==> Padded(Chunk(c, fx, m, xs).0)
  {
    if Padded(c) {
      FeedInputKeepsPadding(c, fx, xs);
      DrainOutputKeepsInput(FeedInput(c, fx, xs), m, xs);
    }
  }

  /** The chunk formula composes over the rest of the buffer. */
  lemma RestPointers(p: Pointers, k: nat, total: nat)
    requires p.inPtr < SegSize && p.outPtr < SegSize
    requires 0 < k <= total && (k == SegSize || k == total)
    ensures PointersAfter(PointersAfter(p, k), total - k) == PointersAfter(p, total)
  {
    var q := PointersAfter(p, k);
    if k == SegSize {
      assert q == Pointers(1, p.inPtr, if p.count == 0 then 0 else p.outPtr);
      ShiftMod(p.inPtr + total);
      ShiftMod(p.outPtr + total);
      ShiftMod(total);
    } else {
      assert q.inPtr < SegSize && q.outPtr < SegSize;
      assert PointersAfter(q, 0) == q;
    }
  }

  /** Advancing a pointer by one and then by n lands where advancing by
      n + 1 does. */
  lemma PointerStep(p: nat, n: nat)
    requires p < SegSize
    ensures ((p + 1) % SegSize + n) % SegSize == (p + 1 + n) % SegSize
  {
    if p + 1 == SegSize {
      ShiftMod(p + 1 + n);
    }
  }

  lemma ShiftMod(a: nat)
    requires a >= SegSize
    ensures (a - SegSize) % SegSize == a % SegSize
  {
  }

  // ----------------------------------------------------------- one call

  /** The effect base class's hooks as inputs: isEnabled, isRunning and the
      dry and wet levels. */
  datatype Hooks = Hooks(enabled: bool, running: bool, dry: real, wet: real)

  /** What processAudioBuffer does: nothing when disabled or not running
      (it returns false), or a new state, the rewritten buffer and the
      power reported to checkGate. */
  datatype Outcome = Skipped | Processed(conv: Convolver, buf: seq<Frame>, gate: Option<real>)

  function Energy(buf: seq<Frame>): (r: real)
    ensures r >= 0.0
    decreases |buf|
  {
    if buf == [] then 0.0
    else
      var x := buf[|buf| - 1];
      Squares(x.left, x.right);
      Energy(buf[..|buf| - 1]) + x.left * x.left + x.right * x.right
  }

  lemma Squares(a: real, b: real)
    ensures a * a + b * b >= 0.0
  {
    MulNonNeg(if a >= 0.0 then a else -a, if a >= 0.0 then a else -a);
    MulNonNeg(if b >= 0.0 then b else -b, if b >= 0.0 then b else -b);
  }

  /** outSum / frames; the quotient is not a number when there are no
      frames. */
  function Power(buf: seq<Frame>): (r: Option<real>)
    ensures r.None? <==> |buf| == 0
  {
    if |buf| == 0 then None else Some(Energy(buf) / |buf| as real)
  }

  /** The reported power is the mean energy per frame, and is never
      negative. */
  lemma PowerIsMeanEnergy(buf: seq<Frame>)
    requires |buf| > 0
    ensures Power(buf).value >= 0.0 && Power(buf).value * |buf| as real == Energy(buf)
  {
  }

  /** processAudioBuffer. */
  function Process(c: Convolver, k: Controls, hooks: Hooks, fx: Fft, buf: seq<Frame>): (r: Outcome)
    requires Consistent(c, k) && ControlsOk(k)
    ensures r.Skipped? <==> !hooks.enabled || !hooks.running
    ensures r.Processed? ==> Consistent(r.conv, k) && SameLoad(c, r.conv) && |r.buf| == |buf| && r.gate == Power(r.buf)
    ensures r.Processed? && |k.impulse| == 0 ==> r.conv == c && r.buf == buf
    ensures r.Processed? && |k.impulse| > 0 ==>
      PointersOf(r.conv) == PointersAfter(PointersOf(c), |buf|) && (Padded(c) ==> Padded(r.conv))
  {
    if !hooks.enabled || !hooks.running then Skipped
    else if |k.impulse| == 0 then Processed(c, buf, Power(buf))
    else
      var m := LevelsFor(hooks.dry, hooks.wet, k.gain, c.fftLength);
      ProcessChunksPointers(c, fx, m, buf);
      ProcessChunksKeepsPadding(c, fx, m, buf);
      var (c', out) := ProcessChunks(c, fx, m, buf);
      Processed(c', out, Power(out))
  }
}
