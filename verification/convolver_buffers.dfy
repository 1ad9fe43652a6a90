/** The buffer-level pieces of the impulse convolver (ImpulseConvolver.h and
    ImpulseConvolver.cpp): the fixed buffer sizes, the FFT-length choice,
    nearest-index resampling of the impulse, the complex multiply over FFTW's
    halfcomplex layout, and the overlap-add of successive segments. */
module ConvolverBuffers {
  import opened Numeric

  /** MAX_FFT_SIZE = 1 << 14 and SEG_SIZE. */
  const MaxFftSize: nat := 16384
  const SegSize: nat := 256

  /** Both sizes are powers of two and the segment size divides the buffer
      size. */
  lemma SizesArePowersOfTwo()
    ensures IsPow2(MaxFftSize) && IsPow2(SegSize)
    ensures MaxFftSize % SegSize == 0 && MaxFftSize / SegSize == 64
  {
    assert IsPow2(1);
    assert IsPow2(2);
    assert IsPow2(4);
    assert IsPow2(8);
    assert IsPow2(16);
    assert IsPow2(32);
    assert IsPow2(64);
    assert IsPow2(128);
    assert IsPow2(256);
    assert IsPow2(512);
    assert IsPow2(1024);
    assert IsPow2(2048);
    assert IsPow2(4096);
    assert IsPow2(8192);
  }

  /** The six per-channel buffers of ImpulseData, each MAX_FFT_SIZE floats:
      the impulse spectrum, the current block's spectrum and time samples,
      the inverse-transform output `op`, the overlap tail and the output
      cache `opc`. */
  datatype ImpulseData = ImpulseData(
    impulseFreq: seq<real>,
    blockFreq: seq<real>,
    blockTime: seq<real>,
    op: seq<real>,
    overlap: seq<real>,
    opc: seq<real>)

  predicate Sized(d: ImpulseData) {
    && |d.impulseFreq| == MaxFftSize && |d.blockFreq| == MaxFftSize
    && |d.blockTime| == MaxFftSize && |d.op| == MaxFftSize
    && |d.overlap| == MaxFftSize && |d.opc| == MaxFftSize
  }

  /** A transform length the engine can run with: a power of two between one
      segment and the buffer size. */
  predicate GoodFftLength(n: nat) {
    IsPow2(n) && SegSize <= n <= MaxFftSize
  }

  // ------------------------------------------------------------ FFT length

  /** `while (fftl < target) fftl <<= 1`. */
  function GrowFftLength(fftl: nat, target: int): (n: nat)
    requires fftl > 0 && IsPow2(fftl)
    ensures IsPow2(n) && n >= fftl && n >= target
    ensures n == fftl || n / 2 < target
    decreases if target > fftl then target - fftl else 0
  {
    if fftl < target then
      assert IsPow2(2 * fftl) by { assert (2 * fftl) / 2 == fftl; }
      GrowFftLength(2 * fftl, target)
    else fftl
  }

  /** m_fftLength for an impulse of `impLength` (resampled) frames: the
      doubling starts from 128 and stops at impLength + SEG_SIZE. */
  function FftLength(impLength: int): (n: nat)
    ensures IsPow2(n) && n >= 128 && n >= impLength + SegSize
  {
    assert IsPow2(128) by { SizesArePowersOfTwo(); }
    GrowFftLength(128, impLength + SegSize)
  }

  /** The chosen length is the least power of two that is at least 128 and
      at least impLength + SEG_SIZE; for the capped impulse lengths it is a
      good transform length. */
  lemma FftLengthIsLeast(impLength: int, p: nat)
    requires IsPow2(p) && p >= 128 && p >= impLength + SegSize
    ensures FftLength(impLength) <= p
  {
    assert IsPow2(128) by { SizesArePowersOfTwo(); }
    var n := FftLength(impLength);
    if n > p {
      Pow2Ordered(p, n);
    }
  }

  lemma FftLengthInRange(impLength: int)
    requires 0 <= impLength <= MaxFftSize - SegSize
    ensures GoodFftLength(FftLength(impLength))
  {
    SizesArePowersOfTwo();
    FftLengthIsLeast(impLength, MaxFftSize);
  }

  /** Between two powers of two, the larger is a multiple of twice the
      smaller, so half the larger is still at least the smaller. */
  lemma {:induction false} Pow2Ordered(p: nat, n: nat)
    requires IsPow2(p) && IsPow2(n) && p < n
    ensures p <= n / 2
    decreases n
  {
    if p > 1 && n > 1 {
      Pow2Ordered(p / 2, n / 2);
    }
  }

  // ------------------------------------------------------------ resampling

  /** freq_ratio = 2 * 44100 / sampleRate * 2^freq. The 44100 is written
      into the code, so the ratio is 2 * 2^freq at a 44.1 kHz engine rate. */
  function FreqRatio(sampleRate: nat, pow2freq: real): (r: real)
    requires sampleRate > 0 && pow2freq > 0.0
    ensures r > 0.0
  {
    2.0 * 44100.0 / sampleRate as real * pow2freq
  }

  /** m_impLength: the impulse length after resampling, capped at
      MAX_FFT_SIZE - SEG_SIZE. */
  function ImpLength(frames: nat, ratio: real): (r: int)
    requires ratio > 0.0
    ensures 0 <= r <= MaxFftSize - SegSize
    ensures r < MaxFftSize - SegSize ==> r == Trunc(frames as real / ratio)
  {
    var l := Trunc(frames as real / ratio);
    if l < MaxFftSize - SegSize then l else MaxFftSize - SegSize
  }

  /** Nearest-index resampling: entry i takes channel sample floor(i * ratio)
      when that index exists, and 0 otherwise. */
  function Resample(src: seq<real>, ratio: real, n: nat): (r: seq<real>)
    requires ratio > 0.0
    ensures |r| == n
    ensures forall i :: 0 <= i < n ==> r[i] == SourceAt(src, SourceIndex(i, ratio))
  {
    seq(n, i requires 0 <= i < n => SourceAt(src, SourceIndex(i, ratio)))
  }

  /** The source index entry i reads: i * ratio truncated, as the float to
      unsigned conversion does for non-negative values. */
  function SourceIndex(i: nat, ratio: real): int
    requires ratio > 0.0
  {
    Trunc(i as real * ratio)
  }

  function SourceAt(src: seq<real>, j: int): real {
    if 0 <= j < |src| then src[j] else 0.0
  }

  /** At ratio 1 the resampled impulse is the source, cut or zero-padded to n. */
  lemma ResampleAtUnitRatio(src: seq<real>, n: nat)
    ensures forall i :: 0 <= i < n ==> Resample(src, 1.0, n)[i] == (if i < |src| then src[i] else 0.0)
  {
  }

  /** When the length cap bites (a long impulse, as any impulse of more than
      about 0.73 s at a 44.1 kHz engine rate and ratio 2), the resampled
      impulse still reads source samples in the last segment of the block:
      the SEG_SIZE zero samples a linear convolution of a segment with the
      impulse needs are not there, so the tail of the impulse wraps around
      into the start of each output segment. */
  lemma CappedImpulseFillsLastSegment(src: seq<real>, ratio: real, i: nat)
    requires ratio > 0.0 && ImpLength(|src|, ratio) == MaxFftSize - SegSize
    requires |src| as real >= MaxFftSize as real * ratio
    requires MaxFftSize - SegSize <= i < MaxFftSize
    ensures FftLength(ImpLength(|src|, ratio)) == MaxFftSize
    ensures 0 <= SourceIndex(i, ratio) < |src|
    ensures Resample(src, ratio, MaxFftSize)[i] == src[SourceIndex(i, ratio)]
  {
    FftLengthInRange(MaxFftSize - SegSize);
    ScaleBelow(i, MaxFftSize, ratio);
    ResampleReadsSource(src, ratio, MaxFftSize, i);
  }

  /** Entry i of the resampled impulse is the source sample at
      floor(i * ratio) whenever i * ratio lies inside the source. */
  lemma ResampleReadsSource(src: seq<real>, ratio: real, n: nat, i: nat)
    requires ratio > 0.0 && i < n && i as real * ratio < |src| as real
    ensures 0 <= SourceIndex(i, ratio) < |src|
    ensures Resample(src, ratio, n)[i] == src[SourceIndex(i, ratio)]
  {
    var x := i as real * ratio;
    MulNonNeg(i as real, ratio);
    assert Trunc(x) as real <= x;
  }

  /** Past the end of the source every entry is zero. */
  lemma ResamplePadsWithZero(src: seq<real>, ratio: real, n: nat, i: nat)
    requires ratio > 0.0 && i < n && i as real * ratio >= |src| as real
    ensures Resample(src, ratio, n)[i] == 0.0
  {
    var x := i as real * ratio;
    assert Trunc(x) as real > |src| as real - 1.0;
    assert Trunc(x) >= |src|;
  }

  lemma ScaleBelow(i: nat, m: nat, ratio: real)
    requires i < m && ratio > 0.0
    ensures 0.0 <= i as real * ratio < m as real * ratio
  {
    MulNonNeg(i as real, ratio);
    assert m as real * ratio - i as real * ratio == (m - i) as real * ratio;
  }

  // ------------------------------------------------------ spectral multiply

  /** A complex number; bin k of a length-n halfcomplex spectrum is
      (s[k], s[n - k]) for 0 < k < n/2. */
  datatype Complex = Complex(re: real, im: real)

  function CMul(a: Complex, b: Complex): Complex {
    Complex(a.re * b.re - a.im * b.im, a.re * b.im + a.im * b.re)
  }

  function Bin(s: seq<real>, n: nat, k: nat): Complex
    requires 0 < k < n <= |s|
  {
    Complex(s[k], s[n - k])
  }

  predicate MultiplyArgs(b: seq<real>, h: seq<real>, n: nat) {
    |b| == MaxFftSize && |h| == MaxFftSize && GoodFftLength(n)
  }

  /** The multiply of the block spectrum `b` by the impulse spectrum `h`,
      entry by entry: bin 0 (DC) is scaled by h[0], bins 1..n/2-1 are complex
      products whose real parts sit at k and imaginary parts at n - k, and
      entry n/2 (Nyquist) and everything from n on are left as they were. */
  function SpectralProduct(b: seq<real>, h: seq<real>, n: nat): (r: seq<real>)
    requires MultiplyArgs(b, h, n)
    ensures |r| == MaxFftSize
  {
    seq(MaxFftSize, k requires 0 <= k < MaxFftSize =>
      if k == 0 then h[0] * b[0]
      else if k < n / 2 then b[k] * h[k] - b[n - k] * h[n - k]
      else if n / 2 < k < n then b[n - k] * h[k] + b[k] * h[n - k]
      else b[k])
  }

  /** Each inner bin of the product is the complex product of the bins. */
  lemma SpectralProductMultipliesBins(b: seq<real>, h: seq<real>, n: nat, k: nat)
    requires MultiplyArgs(b, h, n) && 0 < k < n / 2
    ensures Bin(SpectralProduct(b, h, n), n, k) == CMul(Bin(b, n, k), Bin(h, n, k))
  {
  }

  /** The Nyquist entry is never multiplied: even an all-zero impulse
      spectrum lets it through unchanged. */
  lemma NyquistBinNotMultiplied(b: seq<real>, h: seq<real>, n: nat)
    requires MultiplyArgs(b, h, n)
    ensures SpectralProduct(b, h, n)[n / 2] == b[n / 2]
    ensures (forall k :: 0 <= k < MaxFftSize ==> h[k] == 0.0) ==>
      forall k :: 0 <= k < MaxFftSize && k != n / 2 && k < n ==> SpectralProduct(b, h, n)[k] == 0.0
  {
  }

  function Add(x: seq<real>, y: seq<real>): (r: seq<real>)
    requires |x| == |y|
    ensures |r| == |x|
  {
    seq(|x|, i requires 0 <= i < |x| => x[i] + y[i])
  }

  function Scale(a: real, x: seq<real>): (r: seq<real>)
    ensures |r| == |x|
  {
    seq(|x|, i requires 0 <= i < |x| => a * x[i])
  }

  /** The multiply is linear in the block spectrum: it distributes over
      sums and commutes with scaling. */
  lemma SpectralProductAdditive(b1: seq<real>, b2: seq<real>, h: seq<real>, n: nat)
    requires MultiplyArgs(b1, h, n) && MultiplyArgs(b2, h, n)
    ensures SpectralProduct(Add(b1, b2), h, n) == Add(SpectralProduct(b1, h, n), SpectralProduct(b2, h, n))
  {
    var l := SpectralProduct(Add(b1, b2), h, n);
    var r := Add(SpectralProduct(b1, h, n), SpectralProduct(b2, h, n));
    forall k | 0 <= k < MaxFftSize ensures l[k] == r[k] {
    }
  }

  lemma SpectralProductHomogeneous(b: seq<real>, h: seq<real>, n: nat, a: real)
    requires MultiplyArgs(b, h, n)
    ensures SpectralProduct(Scale(a, b), h, n) == Scale(a, SpectralProduct(b, h, n))
  {
    var l := SpectralProduct(Scale(a, b), h, n);
    var r := Scale(a, SpectralProduct(b, h, n));
    forall k | 0 <= k < MaxFftSize ensures l[k] == r[k] {
    }
  }

  /** The in-place loop of processAudioBuffer: `len` walks down from n while
      i walks up, each pair (i, len) is replaced by the complex product, and
      the DC entry is scaled last. */
  method MultiplyInPlace(b: seq<real>, h: seq<real>, n: nat) returns (r: seq<real>)
    requires MultiplyArgs(b, h, n)
    ensures r == SpectralProduct(b, h, n)
  {
    var half := n / 2;
    EvenLength(n);
    r := b;
    var len := n;
    var i := 1;
    assert r == PairsDone(b, h, n, 1) by { PairsDoneNone(b, h, n); }
    while i < half
      invariant 1 <= i <= half
      invariant len == n - i + 1
      invariant r == PairsDone(b, h, n, i)
    {
      len := len - 1;
      PairsDoneStep(b, h, n, i);
      r := PairUpdate(r, h, i, len);
      i := i + 1;
    }
    LoopExit(b, h, n, r);
    r := r[0 := h[0] * r[0]];
  }

  /** The block spectrum once the pairs below i have been multiplied. */
  function PairsDone(b: seq<real>, h: seq<real>, n: nat, i: nat): (r: seq<real>)
    requires MultiplyArgs(b, h, n) && 1 <= i <= n / 2
    ensures |r| == MaxFftSize
  {
    seq(MaxFftSize, k requires 0 <= k < MaxFftSize =>
      if 0 < k < i then b[k] * h[k] - b[n - k] * h[n - k]
      else if n - i < k < n then b[n - k] * h[k] + b[k] * h[n - k]
      else b[k])
  }

  lemma PairsDoneNone(b: seq<real>, h: seq<real>, n: nat)
    requires MultiplyArgs(b, h, n)
    ensures PairsDone(b, h, n, 1) == b
  {
    var p := PairsDone(b, h, n, 1);
    forall k | 0 <= k < MaxFftSize ensures p[k] == b[k] {
    }
  }

  lemma PairsDoneStep(b: seq<real>, h: seq<real>, n: nat, i: nat)
    requires MultiplyArgs(b, h, n) && 1 <= i < n / 2 && n % 2 == 0
    ensures PairUpdate(PairsDone(b, h, n, i), h, i, n - i) == PairsDone(b, h, n, i + 1)
  {
    var u := PairUpdate(PairsDone(b, h, n, i), h, i, n - i);
    var q := PairsDone(b, h, n, i + 1);
    forall k | 0 <= k < MaxFftSize ensures u[k] == q[k] {
      PairsDoneStepAt(b, h, n, i, k);
    }
  }

  lemma PairsDoneStepAt(b: seq<real>, h: seq<real>, n: nat, i: nat, k: nat)
    requires MultiplyArgs(b, h, n) && 1 <= i < n / 2 && n % 2 == 0 && k < MaxFftSize
    ensures PairUpdate(PairsDone(b, h, n, i), h, i, n - i)[k] == PairsDone(b, h, n, i + 1)[k]
  {
    var p := PairsDone(b, h, n, i);
    assert p[i] == b[i] && p[n - i] == b[n - i];
  }

  /** One turn of the pair loop: entries i and j hold the real and imaginary
      parts of a bin and are replaced by those of its product with h's bin. */
  function PairUpdate(r: seq<real>, h: seq<real>, i: nat, j: nat): (u: seq<real>)
    requires 0 < i < j < |r| == |h|
    ensures |u| == |r|
    ensures u[i] == r[i] * h[i] - r[j] * h[j] && u[j] == r[i] * h[j] + r[j] * h[i]
    ensures forall k :: 0 <= k < |r| && k != i && k != j ==> u[k] == r[k]
  {
    r[j := r[i] * h[j] + r[j] * h[i]][i := r[i] * h[i] - r[j] * h[j]]
  }

  /** What the pair loop leaves behind, with the DC entry scaled, is the
      product. */
  lemma LoopExit(b: seq<real>, h: seq<real>, n: nat, r: seq<real>)
    requires MultiplyArgs(b, h, n) && n % 2 == 0 && r == PairsDone(b, h, n, n / 2)
    ensures r[0 := h[0] * r[0]] == SpectralProduct(b, h, n)
  {
    var r' := r[0 := h[0] * r[0]];
    var want := SpectralProduct(b, h, n);
    forall k | 0 <= k < MaxFftSize ensures r'[k] == want[k] {
    }
  }

  lemma EvenLength(n: nat)
    requires GoodFftLength(n)
    ensures n % 2 == 0
  {
  }

  // ------------------------------------------------------------ overlap-add

  /** After the inverse transform has written op[0..n): op[i] += overlap[i]
      for i < n - SEG_SIZE, then overlap[i - SEG_SIZE] = op[i] for
      SEG_SIZE <= i < n. Yields the new op and overlap. */
  function OverlapAdd(op: seq<real>, overlap: seq<real>, n: nat): (r: (seq<real>, seq<real>))
    requires |op| == MaxFftSize && |overlap| == MaxFftSize && GoodFftLength(n)
    ensures |r.0| == MaxFftSize && |r.1| == MaxFftSize
    ensures forall i :: n - SegSize <= i < MaxFftSize ==> r.0[i] == op[i]
    ensures forall j :: n - SegSize <= j < MaxFftSize ==> r.1[j] == overlap[j]
  {
    var op' := seq(MaxFftSize, i requires 0 <= i < MaxFftSize =>
      if i < n - SegSize then op[i] + overlap[i] else op[i]);
    var overlap' := seq(MaxFftSize, j requires 0 <= j < MaxFftSize =>
      if j < n - SegSize then op'[j + SegSize] else overlap[j]);
    (op', overlap')
  }

  /** The value position i of the output stream gets from a run of inverse
      transforms `invs` (oldest first): the newest block's sample i plus the
      previous block's sample i + SEG_SIZE, and so on, as long as the index
      stays below n. */
  function Overlapped(invs: seq<seq<real>>, n: nat, i: nat): real
    requires forall k :: 0 <= k < |invs| ==> |invs[k]| == MaxFftSize
    requires n <= MaxFftSize
    decreases |invs|
  {
    if invs == [] || i >= n then 0.0
    else invs[|invs| - 1][i] + Overlapped(invs[..|invs| - 1], n, i + SegSize)
  }

  /** Running overlap-add over the inverse transforms `invs` from a zeroed
      tail. */
  function OverlapRun(invs: seq<seq<real>>, overlap0: seq<real>, n: nat): (r: (seq<real>, seq<real>))
    requires forall k :: 0 <= k < |invs| ==> |invs[k]| == MaxFftSize
    requires |overlap0| == MaxFftSize && GoodFftLength(n) && |invs| > 0
    ensures |r.0| == MaxFftSize && |r.1| == MaxFftSize
    decreases |invs|
  {
    var last := invs[|invs| - 1];
    if |invs| == 1 then OverlapAdd(last, overlap0, n)
    else
      var (_, ov) := OverlapRun(invs[..|invs| - 1], overlap0, n);
      OverlapAdd(last, ov, n)
  }

  /** Overlap-add reconstructs the sum of the shifted segment outputs: after
      any run of segments from a zeroed tail, op[i] is the sum over earlier
      segments m of their inverse transform at i + m * SEG_SIZE, and the tail
      holds the part of that sum still owed to later positions. */
  lemma {:induction false} OverlapRunSums(invs: seq<seq<real>>, overlap0: seq<real>, n: nat)
    requires forall k :: 0 <= k < |invs| ==> |invs[k]| == MaxFftSize
    requires |overlap0| == MaxFftSize && GoodFftLength(n) && |invs| > 0
    requires forall j :: 0 <= j < n - SegSize ==> overlap0[j] == 0.0
    ensures var (op, ov) := OverlapRun(invs, overlap0, n);
      && (forall i :: 0 <= i < n ==> op[i] == Overlapped(invs, n, i))
      && (forall j :: 0 <= j < n - SegSize ==> ov[j] == Overlapped(invs, n, j + SegSize))
    decreases |invs|
  {
    var last := invs[|invs| - 1];
    var prev := invs[..|invs| - 1];
    var ov0 := if |invs| == 1 then overlap0 else OverlapRun(prev, overlap0, n).1;
    if |invs| > 1 {
      OverlapRunSums(prev, overlap0, n);
    }
    assert forall j :: 0 <= j < n - SegSize ==> ov0[j] == Overlapped(prev, n, j + SegSize);
    var (op, ov) := OverlapAdd(last, ov0, n);
    forall i | 0 <= i < n ensures op[i] == Overlapped(invs, n, i) {
      if i >= n - SegSize {
        assert Overlapped(prev, n, i + SegSize) == 0.0;
      }
    }
  }
}
