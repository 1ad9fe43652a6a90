/** One channel, one sample: the per-topology recursions of
    basicFilters::update (basic_filters.h:167-569), as pure functions from the
    channel's history, the coefficients and the input to the new history and
    the output. Each clamp of the C++ code is a QBound here. */
module FilterTopologies {
  import opened Numeric
  import opened FilterState

  predicate InLadderRange(x: real) { -10.0 <= x <= 10.0 }
  predicate InUnitRange(x: real) { -1.0 <= x <= 1.0 }

  /** The cubic soft clip y - y^3/6 applied to the last ladder stage. */
  function SoftClip(y: real): (r: real)
    ensures y == 0.0 ==> r == 0.0
  {
    y - y * y * y * (1.0 / 6.0)
  }

  // ---------------------------------------------------------------- Moog

  /** The Moog case: input minus resonance feedback from y4 through four
      bilinear one-pole stages, each clamped to [-10, 10]. */
  function MoogTick(h: History, c: Coeffs, in0: real): (r: (History, real))
    ensures InLadderRange(r.0.y1) && InLadderRange(r.0.y2)
    ensures InLadderRange(r.0.y3) && InLadderRange(r.0.y4)
    ensures r.0.oldy1 == r.0.y1 && r.0.oldy2 == r.0.y2 && r.0.oldy3 == r.0.y3
    ensures r.1 == SoftClip(r.0.y4)
    ensures IsZero(h) && in0 == 0.0 ==> r.0 == h && r.1 == 0.0
  {
    var x := in0 - c.r * h.y4;
    var y1 := QBound(-10.0, (x + h.oldx) * c.p - c.k * h.y1, 10.0);
    var y2 := QBound(-10.0, (y1 + h.oldy1) * c.p - c.k * h.y2, 10.0);
    var y3 := QBound(-10.0, (y2 + h.oldy2) * c.p - c.k * h.y3, 10.0);
    var y4 := QBound(-10.0, (y3 + h.oldy3) * c.p - c.k * h.y4, 10.0);
    (h.(y1 := y1, y2 := y2, y3 := y3, y4 := y4,
        oldx := x, oldy1 := y1, oldy2 := y2, oldy3 := y3),
     SoftClip(y4))
  }

  // ------------------------------------------------------------- Tripole

  /** One of Tripole's four oversampled steps, at interpolation weight `ip`
      between the previous input (m_last) and the current one. */
  function TripoleTick(h: History, c: Coeffs, in0: real, ip: real): (r: (History, real))
    ensures InLadderRange(r.0.y1) && InLadderRange(r.0.y2) && InLadderRange(r.0.y3)
    ensures r.0.y4 == h.y4 && r.0.last == h.last
    ensures r.1 == SoftClip(r.0.y3)
    ensures IsZero(h) && in0 == 0.0 ==> r.0 == h && r.1 == 0.0
  {
    var x := Lerp(h.last, in0, ip) - c.r * h.y3;
    var y1 := QBound(-10.0, (x + h.oldx) * c.p - c.k * h.y1, 10.0);
    var y2 := QBound(-10.0, (y1 + h.oldy1) * c.p - c.k * h.y2, 10.0);
    var y3 := QBound(-10.0, (y2 + h.oldy2) * c.p - c.k * h.y3, 10.0);
    (h.(y1 := y1, y2 := y2, y3 := y3, oldx := x, oldy1 := y1, oldy2 := y2),
     SoftClip(y3))
  }

  /** The Tripole case: four interpolated sub-steps, the average of their
      soft-clipped outputs, then the input is remembered. */
  function TripoleStep(h: History, c: Coeffs, in0: real): (r: (History, real))
    ensures InLadderRange(r.0.y1) && InLadderRange(r.0.y2) && InLadderRange(r.0.y3)
    ensures r.0.last == in0 && r.0.y4 == h.y4
    ensures IsZero(h) && in0 == 0.0 ==> r.0 == h && r.1 == 0.0
  {
    var (h1, o1) := TripoleTick(h, c, in0, 0.25);
    var (h2, o2) := TripoleTick(h1, c, in0, 0.5);
    var (h3, o3) := TripoleTick(h2, c, in0, 0.75);
    var (h4, o4) := TripoleTick(h3, c, in0, 1.0);
    (h4.(last := in0), (o1 + o2 + o3 + o4) * 0.25)
  }

  // ------------------------------------------------------ state-variable

  /** The envelope follower m_sva: an exponential moving average of |in|. */
  function Envelope(h: History, c: Coeffs, in0: real): (h': History)
    ensures h == ZeroHistory && in0 == 0.0 ==> h' == h
    ensures h'.(sva := h.sva) == h
  {
    var mag := if in0 < 0.0 then -in0 else in0;
    h.(sva := h.sva + (mag - h.sva) * c.svsr)
  }

  /** The first Chamberlin section (delay1/delay2); yields its highpass. */
  function SvFirst(h: History, c: Coeffs, in0: real): (r: (History, real))
    ensures h == ZeroHistory && in0 == 0.0 ==> r.0 == h && r.1 == 0.0
    ensures r.0.(delay1 := h.delay1, delay2 := h.delay2) == h
  {
    var d2 := h.delay2 + c.svf1 * h.delay1;
    var hp := in0 - d2 - c.svq * h.delay1;
    var d1 := c.svf1 * hp + h.delay1;
    (h.(delay1 := d1, delay2 := d2), hp)
  }

  /** The second Chamberlin section (delay3/delay4), fed by delay2. */
  function SvSecond(h: History, c: Coeffs): (h': History)
    ensures h == ZeroHistory ==> h' == h
    ensures h'.(delay3 := h.delay3, delay4 := h.delay4) == h
    ensures h'.delay2 == h.delay2
  {
    var d4 := h.delay4 + c.svf2 * h.delay3;
    var hp := h.delay2 - d4 - c.svq * h.delay3;
    var d3 := c.svf2 * hp + h.delay3;
    h.(delay3 := d3, delay4 := d4)
  }

  /** One oversampled pass through both sections; yields the first highpass. */
  function SvBoth(h: History, c: Coeffs, in0: real): (r: (History, real))
    ensures h == ZeroHistory && in0 == 0.0 ==> r.0 == h && r.1 == 0.0
    ensures r.0.(delay1 := h.delay1, delay2 := h.delay2, delay3 := h.delay3, delay4 := h.delay4) == h
  {
    var (h1, hp1) := SvFirst(h, c, in0);
    (SvSecond(h1, c), hp1)
  }

  /** The four state-variable cases, 2x oversampled, soft-clipped by atan of
      the output scaled by the envelope. */
  function SvStep(t: int, h: History, c: Coeffs, in0: real, atanf: real -> real): (r: (History, real))
    requires IsSV(t)
    ensures atanf(0.0) == 0.0 && h == ZeroHistory && in0 == 0.0 ==> r.0 == h && r.1 == 0.0
  {
    var he := Envelope(h, c, in0);
    if t == HighpassSV then
      var (h1, _) := SvFirst(he, c, in0);
      var (h2, hp) := SvFirst(h1, c, in0);
      (h2, atanf(3.0 * hp * h2.sva))
    else
      var (h1, _) := SvBoth(he, c, in0);
      var (h2, hp1) := SvBoth(h1, c, in0);
      var out :=
        if t == LowpassSV then atanf(3.0 * h2.delay4 * h2.sva)
        else if t == BandpassSV then atanf(3.0 * h2.delay3 * h2.sva)
        else atanf(1.5 * (h2.delay4 + hp1) * h2.sva);
      (h2, out)
  }

  // ------------------------------------------------------------------ RC

  predicate RcBounded(s: RcStage) {
    InUnitRange(s.lp) && InUnitRange(s.bp) && InUnitRange(s.hp) && InUnitRange(s.last)
  }

  /** One oversampled step of one simulated RC stage fed with `x`; the
      highpass/bandpass variants do not compute (or store) the lowpass. Every
      intermediate signal is clamped to [-1, 1]. */
  function RcTick(s: RcStage, c: Coeffs, x: real, withLowpass: bool): (s': RcStage)
    ensures InUnitRange(s'.bp) && InUnitRange(s'.hp) && InUnitRange(s'.last)
    ensures withLowpass ==> InUnitRange(s'.lp)
    ensures !withLowpass ==> s'.lp == s.lp
    ensures s == ZeroRc && x == 0.0 ==> s' == s
  {
    var inp := QBound(-1.0, x + s.bp * c.rcq, 1.0);
    var lp := if withLowpass then QBound(-1.0, inp * c.rcb + s.lp * c.rca, 1.0) else s.lp;
    var hp := QBound(-1.0, c.rcc * (s.hp + inp - s.last), 1.0);
    var bp := QBound(-1.0, hp * c.rcb + s.bp * c.rca, 1.0);
    RcStage(lp, bp, hp, inp)
  }

  /** One of the four oversampled iterations of an RC case. The 24 dB
      variants feed the second stage with the first stage's lowpass (lowpass
      type), highpass (highpass type) or bandpass (bandpass type). */
  function RcIteration(t: int, h: History, c: Coeffs, in0: real): (h': History)
    requires IsRC(t)
    ensures RcBounded(h.rc0) ==> RcBounded(h'.rc0)
    ensures RcBounded(h.rc1) ==> RcBounded(h'.rc1)
    ensures t == LowpassRC12 || t == LowpassRC24 ==> RcBounded(h'.rc0)
    ensures t == LowpassRC24 ==> RcBounded(h'.rc1)
    ensures h'.(rc0 := h.rc0, rc1 := h.rc1) == h
    ensures h == ZeroHistory && in0 == 0.0 ==> h' == h
  {
    var lowpass := t == LowpassRC12 || t == LowpassRC24;
    var s0 := RcTick(h.rc0, c, in0, lowpass);
    if t < LowpassRC24 then
      h.(rc0 := s0)
    else
      var x1 := if t == LowpassRC24 then s0.lp else if t == HighpassRC24 then s0.hp else s0.bp;
      h.(rc0 := s0, rc1 := RcTick(h.rc1, c, x1, lowpass))
  }

  /** `n` iterations of an RC case. */
  function RcRun(t: int, h: History, c: Coeffs, in0: real, n: nat): (h': History)
    requires IsRC(t)
    ensures RcBounded(h.rc0) && RcBounded(h.rc1) ==> RcBounded(h'.rc0) && RcBounded(h'.rc1)
    ensures h'.(rc0 := h.rc0, rc1 := h.rc1) == h
    ensures h == ZeroHistory && in0 == 0.0 ==> h' == h
    decreases n
  {
    if n == 0 then h else RcRun(t, RcIteration(t, h, c, in0), c, in0, n - 1)
  }

  /** The tap an RC case returns after its iterations. */
  function RcOutput(t: int, h: History): (r: real)
    requires IsRC(t)
    ensures RcBounded(h.rc0) && RcBounded(h.rc1) ==> InUnitRange(r)
  {
    if t == LowpassRC12 then h.rc0.lp
    else if t == HighpassRC12 then h.rc0.hp
    else if t == BandpassRC12 then h.rc0.bp
    else if t == LowpassRC24 then h.rc1.lp
    else if t == HighpassRC24 then h.rc1.hp
    else h.rc1.bp
  }

  /** The six RC cases: four oversampled iterations, then the selected tap. */
  function RcStep(t: int, h: History, c: Coeffs, in0: real): (r: (History, real))
    requires IsRC(t)
    ensures RcBounded(h.rc0) && RcBounded(h.rc1) ==>
      RcBounded(r.0.rc0) && RcBounded(r.0.rc1) && InUnitRange(r.1)
    ensures h == ZeroHistory && in0 == 0.0 ==> r.0 == h && r.1 == 0.0
  {
    var h' := RcRun(t, h, c, in0, 4);
    (h', RcOutput(t, h'))
  }

  // ------------------------------------------------------------- formant

  predicate VfBounded(s: VfStage) {
    InUnitRange(s.bp) && InUnitRange(s.hp) && InUnitRange(s.last)
  }

  /** One formant stage fed with `x` and resonance feedback `fb`, using the
      coefficient set `i` (0 for the first formant, 1 for the second). */
  function VfTick(s: VfStage, c: Coeffs, i: nat, x: real, fb: real): (s': VfStage)
    requires CoeffsOk(c) && i < 2
    ensures VfBounded(s')
    ensures IsZeroVf(s) && x == 0.0 && fb == 0.0 ==> IsZeroVf(s')
  {
    var inp := QBound(-1.0, x + fb * c.vfq, 1.0);
    var hp := QBound(-1.0, c.vfc[i] * (s.hp + inp - s.last), 1.0);
    var bp := QBound(-1.0, hp * c.vfb[i] + s.bp * c.vfa[i], 1.0);
    VfStage(bp, hp, inp)
  }

  /** One pass of the formant case: stages 0, 2, 4 form the first formant and
      stages 1, 3, 5 the second; the pass contributes the two chain outputs.
      The second chain's first stage takes its resonance feedback from stage
      0 (as just updated), not from its own stage 1. */
  function FormantPass(vf: seq<VfStage>, c: Coeffs, in0: real): (r: (seq<VfStage>, real))
    requires |vf| == 6 && CoeffsOk(c)
    ensures |r.0| == 6 && forall i :: 0 <= i < 6 ==> VfBounded(r.0[i])
    ensures -2.0 <= r.1 <= 2.0
    ensures (forall i :: 0 <= i < 6 ==> IsZeroVf(vf[i])) && in0 == 0.0 ==>
      (forall i :: 0 <= i < 6 ==> IsZeroVf(r.0[i])) && r.1 == 0.0
  {
    var s0 := VfTick(vf[0], c, 0, in0, vf[0].bp);
    var s2 := VfTick(vf[2], c, 0, s0.bp, vf[2].bp);
    var s4 := VfTick(vf[4], c, 0, s2.bp, vf[4].bp);
    var s1 := VfTick(vf[1], c, 1, in0, s0.bp);
    var s3 := VfTick(vf[3], c, 1, s1.bp, vf[3].bp);
    var s5 := VfTick(vf[5], c, 1, s3.bp, vf[5].bp);
    ([s0, s1, s2, s3, s4, s5], s4.bp + s5.bp)
  }

  /** `n` formant passes; yields the sum of their contributions. */
  function FormantRun(vf: seq<VfStage>, c: Coeffs, in0: real, n: nat): (r: (seq<VfStage>, real))
    requires |vf| == 6 && CoeffsOk(c)
    ensures |r.0| == 6
    ensures n > 0 ==> forall i :: 0 <= i < 6 ==> VfBounded(r.0[i])
    ensures -2.0 * n as real <= r.1 <= 2.0 * n as real
    ensures (forall i :: 0 <= i < 6 ==> IsZeroVf(vf[i])) && in0 == 0.0 ==>
      (forall i :: 0 <= i < 6 ==> IsZeroVf(r.0[i])) && r.1 == 0.0
    decreases n
  {
    if n == 0 then (vf, 0.0)
    else
      var (vf1, o1) := FormantPass(vf, c, in0);
      var (vf2, o2) := FormantRun(vf1, c, in0, n - 1);
      (vf2, o1 + o2)
  }

  /** The two formant cases: four oversampled passes scaled by 1/2, or one
      pass scaled by 2 for FastFormant. */
  function FormantStep(t: int, h: History, c: Coeffs, in0: real): (r: (History, real))
    requires IsFormant(t) && HistoryOk(h) && CoeffsOk(c)
    ensures HistoryOk(r.0) && forall i :: 0 <= i < 6 ==> VfBounded(r.0.vf[i])
    ensures -4.0 <= r.1 <= 4.0
    ensures r.0.(vf := h.vf) == h
    ensures h == ZeroHistory && in0 == 0.0 ==> r.0 == h && r.1 == 0.0
  {
    var os := if t == FastFormant then 1 else 4;
    var (vf', sum) := FormantRun(h.vf, c, in0, os);
    ZeroHistoryIsZero(h.(vf := vf'));
    (h.(vf := vf'), if t == FastFormant then sum * 2.0 else sum * 0.5)
  }

  // ----------------------------------------------------------------- Hex

  /** One of Hex_LP's two oversampled steps: two one-pole lowpasses with the
      feedback tap r = y6 * q clamped to [-1, 1], then four one-pole
      highpasses that only feed the resonance. Yields the second lowpass. */
  function HexTick(h: History, c: Coeffs, in0: real): (r: (History, real))
    ensures h == ZeroHistory && in0 == 0.0 ==> r.0 == h && r.1 == 0.0
    ensures r.1 == r.0.y2
  {
    var fb := QBound(-1.0, h.y6 * c.q, 1.0);
    var y1 := (in0 + fb) * c.la + h.y1 * c.lb;
    var y2 := (y1 + fb) * c.la + h.y2 * c.lb;
    var y3 := y2 * c.ha + h.y3 * c.hb;
    var y4 := y3 * c.ha + h.y4 * c.hb;
    var y5 := y4 * c.ha + h.y5 * c.hb;
    var y6 := y5 * c.ha + h.y6 * c.hb;
    (h.(y1 := y1, y2 := y2, y3 := y3, y4 := y4, y5 := y5, y6 := y6), y2)
  }

  /** The resonance tap Hex_LP feeds back lies in [-1, 1] whatever the
      registers hold. */
  lemma HexFeedbackBounded(h: History, c: Coeffs)
    ensures InUnitRange(QBound(-1.0, h.y6 * c.q, 1.0))
  {
  }

  function HexStep(h: History, c: Coeffs, in0: real): (r: (History, real))
    ensures h == ZeroHistory && in0 == 0.0 ==> r.0 == h && r.1 == 0.0
  {
    var (h1, o1) := HexTick(h, c, in0);
    var (h2, o2) := HexTick(h1, c, in0);
    (h2, (o1 + o2) * 0.5)
  }

  // -------------------------------------------------------------- biquad

  /** The default case: the biquad in transposed direct form II. */
  function BiquadTick(h: History, c: Coeffs, in0: real): (r: (History, real))
    ensures r.1 == h.z1 + c.b0a0 * in0
    ensures h == ZeroHistory && in0 == 0.0 ==> r.0 == h && r.1 == 0.0
  {
    var out := h.z1 + c.b0a0 * in0;
    (h.(z1 := c.b1a0 * in0 + h.z2 - c.a1a0 * out, z2 := c.b2a0 * in0 - c.a2a0 * out), out)
  }

  // ------------------------------------------------------------ dispatch

  /** The result of the switch in update: the channel's new history, the
      value computed, and whether the case falls through to the cascade
      (Moog and the biquad default break; every other case returns). */
  datatype StepResult = StepResult(h: History, out: real, fallsThrough: bool)

  function Step(t: int, h: History, c: Coeffs, in0: real, atanf: real -> real): (r: StepResult)
    requires HistoryOk(h) && CoeffsOk(c)
    ensures HistoryOk(r.h)
    ensures r.fallsThrough <==> !(t == Tripole || IsSV(t) || IsRC(t) || IsFormant(t) || t == HexLP)
    ensures atanf(0.0) == 0.0 && h == ZeroHistory && in0 == 0.0 ==> r.h == h && r.out == 0.0
  {
    if t == Moog then
      var (h', o) := MoogTick(h, c, in0);
      StepResult(h', o, true)
    else if t == Tripole then
      var (h', o) := TripoleStep(h, c, in0);
      StepResult(h', o, false)
    else if IsSV(t) then
      var (h', o) := SvStep(t, h, c, in0, atanf);
      StepResult(h', o, false)
    else if IsRC(t) then
      var (h', o) := RcStep(t, h, c, in0);
      StepResult(h', o, false)
    else if IsFormant(t) then
      var (h', o) := FormantStep(t, h, c, in0);
      StepResult(h', o, false)
    else if t == HexLP then
      var (h', o) := HexStep(h, c, in0);
      StepResult(h', o, false)
    else
      var (h', o) := BiquadTick(h, c, in0);
      StepResult(h', o, true)
  }

  /** Only the six RC cases touch the RC registers: every other case leaves
      both RC stages as they were. */
  lemma StepKeepsRcStages(t: int, h: History, c: Coeffs, in0: real, atanf: real -> real)
    requires HistoryOk(h) && CoeffsOk(c) && !IsRC(t)
    ensures Step(t, h, c, in0, atanf).h.rc0 == h.rc0
    ensures Step(t, h, c, in0, atanf).h.rc1 == h.rc1
  {
  }
}
