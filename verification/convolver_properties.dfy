/** Properties of the convolver's segment pipeline that span several
    samples or several calls. */
module ConvolverProperties {
  import opened Numeric
  import opened ConvolverBuffers
  import opened ImpulseConvolver

  /** The ratio is worked out against a fixed 44100 Hz: at a 44.1 kHz
      engine rate with the frequency knob at 0 the impulse is read at every
      second sample, and the ratio is 1 only when the engine rate is 88200
      times 2^freq. */
  lemma RatioAssumes44100(sampleRate: nat, pow2: real)
    requires sampleRate > 0 && pow2 > 0.0
    ensures FreqRatio(44100, 1.0) == 2.0
    ensures FreqRatio(sampleRate, pow2) == 1.0 <==> sampleRate as real == 88200.0 * pow2
  {
    var sr := sampleRate as real;
    assert FreqRatio(sampleRate, pow2) * sr == 88200.0 * pow2;
  }

  predicate Aligned(c: Convolver) {
    c.inPtr == 0 && c.outPtr == 0
  }

  /** When every call's frame count is a multiple of SEG_SIZE, both pointers
      are 0 at every call boundary (a reload leaves them at 0). */
  lemma AlignedCallsStayAligned(c: Convolver, k: Controls, hooks: Hooks, fx: Fft, buf: seq<Frame>)
    requires Consistent(c, k) && ControlsOk(k) && Aligned(c) && |buf| % SegSize == 0
    ensures var r := Process(c, k, hooks, fx, buf); r.Processed? ==> Aligned(r.conv)
  {
  }

  /** One aligned chunk: the segment it fills completes, the pointers come
      back to 0, and the result is what the next chunk will play. */
  lemma AlignedChunkState(c: Convolver, fx: Fft, m: Levels, xs: seq<Frame>)
    requires Ready(c) && Aligned(c) && |xs| == SegSize
    ensures var r := Chunk(c, fx, m, xs).0;
      && Aligned(r) && r.count == 1
      && r.left.opc[..SegSize] == r.left.op[..SegSize] && r.right.opc[..SegSize] == r.right.op[..SegSize]
  {
    var f := FeedInput(c, fx, xs);
    FeedInputPointers(c, fx, xs);
    DrainOutputPointers(f, m, xs);
    DrainOutputKeepsInput(f, m, xs);
    DrainOutputRefreshes(f, m, xs);
  }

  /** An aligned chunk plays back the cached output. */
  lemma AlignedChunkOutput(c: Convolver, fx: Fft, m: Levels, xs: seq<Frame>)
    requires Ready(c) && Aligned(c) && |xs| == SegSize
    ensures var out := Chunk(c, fx, m, xs).1;
      forall t :: 0 <= t < SegSize ==> out[t] == Mixed(m, xs[t], c.left.opc[t], c.right.opc[t])
  {
    var f := FeedInput(c, fx, xs);
    FeedInputPointers(c, fx, xs);
    FeedInputKeepsOutput(c, fx, xs);
    DrainOutputReads(f, m, xs);
  }

  /** The state after the first j whole segments of the buffer. */
  function StateAfter(c: Convolver, fx: Fft, m: Levels, buf: seq<Frame>, j: nat): Convolver
    requires Ready(c) && j * SegSize <= |buf|
  {
    ProcessChunks(c, fx, m, buf[..j * SegSize]).0
  }

  /** With aligned pointers, the first segment of a call plays back the
      cached output. */
  lemma AlignedFirstSegment(c: Convolver, fx: Fft, m: Levels, buf: seq<Frame>)
    requires Ready(c) && Aligned(c) && (|buf| == 0 || |buf| >= SegSize)
    ensures var out := ProcessChunks(c, fx, m, buf).1;
      forall t :: 0 <= t < SegSize && t < |buf| ==> out[t] == Mixed(m, buf[t], c.left.opc[t], c.right.opc[t])
  {
    if buf != [] {
      var xs := buf[..SegSize];
      assert ChunkLength(|buf|) == SegSize;
      AlignedChunkOutput(c, fx, m, xs);
      var out1 := Chunk(c, fx, m, xs).1;
      var out := ProcessChunks(c, fx, m, buf).1;
      assert out[..SegSize] == out1;
    }
  }

  /** Pipeline latency: with aligned pointers, every whole segment j of the
      buffer after the first plays back op as it stood
      after segment j - 1 completed, that is, the convolution result of the
      input one segment earlier. */
  lemma AlignedOneSegmentLatency(c: Convolver, fx: Fft, m: Levels, buf: seq<Frame>)
    requires Ready(c) && Aligned(c)
    ensures var out := ProcessChunks(c, fx, m, buf).1;
      forall j, t :: 1 <= j && (j + 1) * SegSize <= |buf| && 0 <= t < SegSize ==>
        out[j * SegSize + t] == Mixed(m, buf[j * SegSize + t],
          StateAfter(c, fx, m, buf, j).left.op[t], StateAfter(c, fx, m, buf, j).right.op[t])
  {
    forall j, t | 1 <= j && (j + 1) * SegSize <= |buf| && 0 <= t < SegSize {
      LatencyAt(c, fx, m, buf, j, t);
    }
  }

  lemma {:induction false} LatencyAt(c: Convolver, fx: Fft, m: Levels, buf: seq<Frame>, j: nat, t: nat)
    requires Ready(c) && Aligned(c) && 1 <= j && (j + 1) * SegSize <= |buf| && t < SegSize
    ensures ProcessChunks(c, fx, m, buf).1[j * SegSize + t] == Mixed(m, buf[j * SegSize + t],
      StateAfter(c, fx, m, buf, j).left.op[t], StateAfter(c, fx, m, buf, j).right.op[t])
    decreases j
  {
    if j == 1 {
      LatencySecondSegment(c, fx, m, buf, t);
    } else {
      var xs := buf[..SegSize];
      var c1 := Chunk(c, fx, m, xs).0;
      AlignedChunkState(c, fx, m, xs);
      OutputOfRest(c, fx, m, buf, j, t);
      StateAfterShift(c, fx, m, buf, j);
      LatencyAt(c1, fx, m, buf[SegSize..], j - 1, t);
    }
  }

  /** The second segment of an aligned call plays back what the first
      segment's completion left in op. */
  lemma LatencySecondSegment(c: Convolver, fx: Fft, m: Levels, buf: seq<Frame>, t: nat)
    requires Ready(c) && Aligned(c) && 2 * SegSize <= |buf| && t < SegSize
    ensures ProcessChunks(c, fx, m, buf).1[SegSize + t] == Mixed(m, buf[SegSize + t],
      StateAfter(c, fx, m, buf, 1).left.op[t], StateAfter(c, fx, m, buf, 1).right.op[t])
  {
    var xs := buf[..SegSize];
    var rest := buf[SegSize..];
    var c1 := Chunk(c, fx, m, xs).0;
    AlignedChunkState(c, fx, m, xs);
    OutputOfRest(c, fx, m, buf, 1, t);
    FirstStateAfter(c, fx, m, buf);
    AlignedFirstSegment(c1, fx, m, rest);
    assert c1.left.opc[t] == c1.left.op[t] && c1.right.opc[t] == c1.right.op[t] by {
      assert c1.left.opc[..SegSize][t] == c1.left.op[..SegSize][t];
      assert c1.right.opc[..SegSize][t] == c1.right.op[..SegSize][t];
    }
  }

  /** Output in segment j past the first is the output of the rest of the
      buffer, processed from the state after the first segment, in segment
      j - 1. */
  lemma OutputOfRest(c: Convolver, fx: Fft, m: Levels, buf: seq<Frame>, j: nat, t: nat)
    requires Ready(c) && 1 <= j && (j + 1) * SegSize <= |buf| && t < SegSize
    ensures ProcessChunks(c, fx, m, buf).1[j * SegSize + t]
         == ProcessChunks(Chunk(c, fx, m, buf[..SegSize]).0, fx, m, buf[SegSize..]).1[(j - 1) * SegSize + t]
    ensures buf[j * SegSize + t] == buf[SegSize..][(j - 1) * SegSize + t]
  {
    assert ChunkLength(|buf|) == SegSize;
  }

  lemma FirstStateAfter(c: Convolver, fx: Fft, m: Levels, buf: seq<Frame>)
    requires Ready(c) && |buf| >= SegSize
    ensures StateAfter(c, fx, m, buf, 1) == Chunk(c, fx, m, buf[..SegSize]).0
  {
    var xs := buf[..SegSize];
    var c1 := Chunk(c, fx, m, xs).0;
    assert buf[..1 * SegSize] == xs;
    assert ChunkLength(|xs|) == SegSize && xs[..SegSize] == xs && xs[SegSize..] == [];
    assert ProcessChunks(c1, fx, m, []).0 == c1;
  }

  /** The state after j segments of the buffer is the state after j - 1
      segments of its tail, started from the state after its first
      segment. */
  lemma StateAfterShift(c: Convolver, fx: Fft, m: Levels, buf: seq<Frame>, j: nat)
    requires Ready(c) && 1 <= j && j * SegSize <= |buf|
    ensures StateAfter(c, fx, m, buf, j)
         == StateAfter(Chunk(c, fx, m, buf[..SegSize]).0, fx, m, buf[SegSize..], j - 1)
  {
    if j == 1 {
      FirstStateAfter(c, fx, m, buf);
      return;
    }
    var pre := buf[..j * SegSize];
    assert ChunkLength(|pre|) == SegSize;
    assert pre[..SegSize] == buf[..SegSize];
    assert pre[SegSize..] == buf[SegSize..][..(j - 1) * SegSize];
  }

  /** A frame scaled by the dry level alone. */
  function DryOnly(dry: real, x: Frame): Frame {
    Frame(dry * x.left, dry * x.right)
  }

  /** Mixing in a silent wet sample leaves the dry signal. */
  lemma MixedOfSilence(m: Levels, x: Frame)
    ensures Mixed(m, x, 0.0, 0.0) == DryOnly(m.dry, x)
  {
  }

  /** After a reload, the first SEG_SIZE frames of the next call (or all of
      them, if it is shorter) carry no wet signal: the output cache was
      zeroed. */
  lemma ReloadStartsDry(c: Convolver, k: Controls, fx: Fft, pow2: real, hooks: Hooks, buf: seq<Frame>)
    requires Valid(c) && ControlsOk(k) && pow2 > 0.0 && hooks.enabled && hooks.running && |k.impulse| > 0
    ensures var r := Process(UpdateImpulse(c, k, fx, pow2), k, hooks, fx, buf);
      forall t :: 0 <= t < |buf| && t < SegSize ==> r.buf[t] == DryOnly(hooks.dry, buf[t])
  {
    var c0 := UpdateImpulse(c, k, fx, pow2);
    ProcessFromReset(c0, k, hooks, fx, buf);
  }

  lemma ProcessFromReset(c0: Convolver, k: Controls, hooks: Hooks, fx: Fft, buf: seq<Frame>)
    requires Consistent(c0, k) && ControlsOk(k) && IsReset(c0) && hooks.enabled && hooks.running && |k.impulse| > 0
    ensures var r := Process(c0, k, hooks, fx, buf);
      forall t :: 0 <= t < |buf| && t < SegSize ==> r.buf[t] == DryOnly(hooks.dry, buf[t])
  {
    var m := LevelsFor(hooks.dry, hooks.wet, k.gain, c0.fftLength);
    DryFromEmptyCache(c0, fx, m, buf);
  }

  /** From pointers at 0 and a zeroed output cache, the first segment of
      output is the dry signal alone. */
  lemma DryFromEmptyCache(c: Convolver, fx: Fft, m: Levels, buf: seq<Frame>)
    requires Ready(c) && Aligned(c)
    requires forall i :: 0 <= i < SegSize ==> c.left.opc[i] == 0.0 && c.right.opc[i] == 0.0
    ensures var out := ProcessChunks(c, fx, m, buf).1;
      forall t :: 0 <= t < |buf| && t < SegSize ==> out[t] == DryOnly(m.dry, buf[t])
  {
    if buf != [] {
      var n := ChunkLength(|buf|);
      var xs := buf[..n];
      var f := FeedInput(c, fx, xs);
      FeedInputPointers(c, fx, xs);
      FeedInputKeepsOutput(c, fx, xs);
      DrainOutputReads(f, m, xs);
      var out1 := DrainOutput(f, m, xs).1;
      var out := ProcessChunks(c, fx, m, buf).1;
      assert out[..n] == out1;
      forall t | 0 <= t < n ensures out[t] == DryOnly(m.dry, buf[t]) {
        assert out[t] == out1[t];
        assert out1[t] == Mixed(m, xs[t], 0.0, 0.0);
        MixedOfSilence(m, xs[t]);
      }
    }
  }

  /** The out_ptr reset on the first completed segment: from a reload,
      three calls of 100 frames leave in_ptr at 44 but out_ptr at 100,
      where without the reset both would be 44. */
  lemma OutPtrResetDesynchronises(c: Convolver, k: Controls, hooks: Hooks, fx: Fft,
                                  b1: seq<Frame>, b2: seq<Frame>, b3: seq<Frame>)
    requires Consistent(c, k) && ControlsOk(k) && |k.impulse| > 0
    requires c.count == 0 && Aligned(c) && hooks.enabled && hooks.running
    requires |b1| == 100 && |b2| == 100 && |b3| == 100
    ensures var r1 := Process(c, k, hooks, fx, b1).conv;
      var r2 := Process(r1, k, hooks, fx, b2).conv;
      var r3 := Process(r2, k, hooks, fx, b3).conv;
      r3.inPtr == 44 && r3.outPtr == 100 && r3.count == 1
  {
    var r1 := Process(c, k, hooks, fx, b1).conv;
    assert PointersOf(r1) == Pointers(0, 100, 100);
    var r2 := Process(r1, k, hooks, fx, b2).conv;
    assert PointersOf(r2) == Pointers(0, 200, 200);
    var r3 := Process(r2, k, hooks, fx, b3).conv;
    assert PointersOf(r3) == PointersAfter(Pointers(0, 200, 200), 100);
  }

  /** m_count only ever holds 0 or 1, never falls back during processing,
      and only a reload clears it. */
  lemma CountOnlyRises(c: Convolver, k: Controls, hooks: Hooks, fx: Fft, buf: seq<Frame>, pow2: real)
    requires Consistent(c, k) && ControlsOk(k) && pow2 > 0.0
    ensures var r := Process(c, k, hooks, fx, buf); r.Processed? ==> c.count <= r.conv.count <= 1
    ensures UpdateImpulse(c, k, fx, pow2).count == 0
  {
  }
}
