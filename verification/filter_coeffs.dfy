/** basicFilters::calcFilterCoeffs (basic_filters.h:581-756): the clamping of
    cutoff and resonance and the per-topology coefficient formulas. The
    transcendental functions come from a `Math` record and stay uninterpreted,
    so the contracts are the algebraic identities and bounds that hold for any
    values they return. */
module FilterCoeffs {
  import opened Wrappers
  import opened Numeric
  import opened FilterState

  const MinFreq: real := 5.0
  const MaxFreq: real := 20000.0
  const MinQ: real := 0.01

  /** Resonance is floored at minQ() before any use. */
  function EffectiveQ(q: real): (r: real)
    ensures r >= MinQ
    ensures q >= MinQ ==> r == q
    ensures q < MinQ ==> r == MinQ
  {
    QMax(q, MinQ)
  }

  /** The cutoff frequency each topology's branch actually works with. */
  function EffectiveFreq(t: int, freq: real): (r: real)
    ensures MinFreq <= r
    ensures !IsSV(t) ==> r <= MaxFreq
  {
    if IsRC(t) then QBound(50.0, freq, MaxFreq)
    else if t == Tripole || t == HexLP then QBound(20.0, freq, MaxFreq)
    else if IsSV(t) then QMax(MinFreq, freq)
    else QBound(MinFreq, freq, MaxFreq)
  }

  /** The clamp windows: [50, 20000] for RC, [20, 20000] for Tripole and Hex,
      [5, 20000] for Moog, formant and the biquads, and only a floor of 5 for
      the state-variable family. Frequencies inside the window pass unchanged. */
  lemma EffectiveFreqWindow(t: int, freq: real)
    ensures var f := EffectiveFreq(t, freq);
      && (IsRC(t) ==> 50.0 <= f <= MaxFreq && (50.0 <= freq <= MaxFreq ==> f == freq))
      && (t == Tripole || t == HexLP ==> 20.0 <= f <= MaxFreq && (20.0 <= freq <= MaxFreq ==> f == freq))
      && (IsSV(t) ==> MinFreq <= f && (MinFreq <= freq ==> f == freq) && (freq > MaxFreq ==> f == freq))
      && (!IsRC(t) && t != Tripole && t != HexLP && !IsSV(t) ==>
            MinFreq <= f <= MaxFreq && (MinFreq <= freq <= MaxFreq ==> f == freq))
  {
  }

  // ------------------------------------------------------------ formant

  /** The vowel table `_f` (a, e, i, o, u, a): two formant frequencies each. */
  const FormantTable: seq<(real, real)> := [
    (1000.0, 1400.0), (500.0, 2300.0), (320.0, 3200.0),
    (500.0, 1000.0), (320.0, 800.0), (1000.0, 1400.0)]

  /** freqRatio: 4 vowel steps over the nominal 14000 Hz range. */
  const FreqRatio: real := 4.0 / 14000.0

  /** The table lookup as written: vowel = (int)(freq * freqRatio) and the
      entries `vowel` and `vowel + 1` are interpolated. `None` stands for the
      read of `_f[vowel + 1]` past the end of the six-entry table. */
  function FormantLookupAsWritten(freq: real): (r: Option<(real, real)>)
    requires MinFreq <= freq
    ensures r.Some? ==> 320.0 <= r.value.0 <= 1000.0 && 800.0 <= r.value.1 <= 3200.0
  {
    var vowelf := freq * FreqRatio;
    var vowel := Trunc(vowelf);
    var fract := vowelf - vowel as real;
    if vowel + 1 < |FormantTable| then
      LerpBetween(FormantTable[vowel].0, FormantTable[vowel + 1].0, fract);
      LerpBetween(FormantTable[vowel].1, FormantTable[vowel + 1].1, fract);
      Some((Lerp(FormantTable[vowel].0, FormantTable[vowel + 1].0, fract),
            Lerp(FormantTable[vowel].1, FormantTable[vowel + 1].1, fract)))
    else None
  }

  /** The clamp lets frequencies up to 20000 through, but the lookup stays in
      the table only below 17500 Hz: from there on vowel is 5 and `_f[6]` is
      read. */
  lemma FormantLookupOverrun(freq: real)
    requires MinFreq <= freq <= MaxFreq
    ensures FormantLookupAsWritten(freq).None? <==> freq >= 17500.0
  {
  }

  /** The concrete input: the largest cutoff the clamp admits reads `_f[6]`. */
  lemma FormantLookupOverrunAtMaxFreq()
    ensures FormantLookupAsWritten(EffectiveFreq(FormantFilter, 20000.0)).None?
  {
    FormantLookupOverrun(20000.0);
  }

  /** The lookup with the vowel position capped at the last table entry, so
      that `vowel + 1` never passes index 5. */
  function FormantLookup(freq: real): (r: (real, real))
    requires MinFreq <= freq
    ensures 320.0 <= r.0 <= 1000.0 && 800.0 <= r.1 <= 3200.0
    ensures FormantLookupAsWritten(freq).Some? ==> FormantLookupAsWritten(freq).value == r
  {
    var vowelf := QMin(freq * FreqRatio, 5.0);
    var vowel := if Trunc(vowelf) < 4 then Trunc(vowelf) else 4;
    var fract := vowelf - vowel as real;
    LerpBetween(FormantTable[vowel].0, FormantTable[vowel + 1].0, fract);
    LerpBetween(FormantTable[vowel].1, FormantTable[vowel + 1].1, fract);
    (Lerp(FormantTable[vowel].0, FormantTable[vowel + 1].0, fract),
     Lerp(FormantTable[vowel].1, FormantTable[vowel + 1].1, fract))
  }

  // ----------------------------------------------------------- one-pole

  /** The one-pole RC coefficients shared by the RC and formant branches,
      from the time constant f = 1/(2 pi fc) and the (oversampled) sample
      period sr: a = 1 - sr/(f + sr), b = 1 - a, c = f/(f + sr). */
  function OnePole(f: real, sr: real): (r: (real, real, real))
    requires f > 0.0 && sr > 0.0
    ensures r.1 == 1.0 - r.0
    ensures 0.0 < r.0 < 1.0 && 0.0 < r.1 < 1.0
    ensures r.0 == r.2
  {
    var a := 1.0 - sr / (f + sr);
    assert a == f / (f + sr);
    (a, 1.0 - a, f / (f + sr))
  }

  function SampleRatio(sampleRate: nat): real
    requires sampleRate > 0
  {
    1.0 / sampleRate as real
  }

  // --------------------------------------------------------- all branches

  /** Which family's coefficients a type's branch writes. */
  predicate IsLadder(t: int) { t == Moog || t == DoubleMoog }
  predicate IsBiquadBranch(t: int) {
    !IsRC(t) && !IsFormant(t) && !IsLadder(t) && t != Tripole && !IsSV(t) && t != HexLP
  }

  /** The new coefficient set of a filter of type `t` running at `sampleRate`. */
  function Compute(t: int, c: Coeffs, sampleRate: nat, m: Math, freq: real, q: real): (r: Coeffs)
    requires CoeffsOk(c) && sampleRate > 0
    ensures CoeffsOk(r)
    ensures IsRC(t) ==>
      && r.rcb == 1.0 - r.rca && 0.0 < r.rca < 1.0 && r.rcc == r.rca
      && r.rcq * 4.0 == EffectiveQ(q)
      && r == c.(rca := r.rca, rcb := r.rcb, rcc := r.rcc, rcq := r.rcq)
    ensures IsFormant(t) ==>
      && (forall i :: 0 <= i < 2 ==> r.vfb[i] == 1.0 - r.vfa[i] && 0.0 < r.vfa[i] < 1.0 && r.vfc[i] == r.vfa[i])
      && r.vfq * 4.0 == EffectiveQ(q)
      && r.vfa[2..] == c.vfa[2..] && r.vfb[2..] == c.vfb[2..] && r.vfc[2..] == c.vfc[2..]
      && r == c.(vfa := r.vfa, vfb := r.vfb, vfc := r.vfc, vfq := r.vfq)
    ensures IsLadder(t) || t == Tripole ==>
      && r.k == 2.0 * r.p - 1.0
      && r == c.(r := r.r, p := r.p, k := r.k)
    ensures IsSV(t) ==>
      && r.svf1 <= 0.825 && r.svf2 <= 0.825 && r.svq >= 0.0001
      && r == c.(svf1 := r.svf1, svf2 := r.svf2, svq := r.svq)
    ensures t == HexLP ==>
      && r.la == 1.0 - r.lb && r.ha == 1.0 + r.hb
      && r == c.(la := r.la, lb := r.lb, ha := r.ha, hb := r.hb, q := r.q)
    ensures IsBiquadBranch(t) ==>
      r == c.(b0a0 := r.b0a0, b1a0 := r.b1a0, b2a0 := r.b2a0, a1a0 := r.a1a0, a2a0 := r.a2a0)
    ensures t == LowPass ==> r.b0a0 == r.b2a0 && r.b1a0 == 2.0 * r.b0a0
    ensures t == HiPass ==> r.b0a0 == r.b2a0 && r.b1a0 == -2.0 * r.b0a0
    ensures t == BandPassCSG || t == BandPassCZPG ==> r.b1a0 == 0.0 && r.b2a0 == -r.b0a0
    ensures t == Notch ==> r.b1a0 == r.a1a0 && r.b0a0 == r.b2a0
    ensures t == AllPass ==> r.b1a0 == r.a1a0 && r.b0a0 == r.a2a0 && r.b2a0 == 1.0
  {
    EffectiveFreqWindow(t, freq);
    Derive(t, c, sampleRate, m, EffectiveFreq(t, freq), EffectiveQ(q))
  }

  /** The branch bodies, from the clamped cutoff `freq'` and resonance `q'`. */
  function Derive(t: int, c: Coeffs, sampleRate: nat, m: Math, freq': real, q': real): Coeffs
    requires CoeffsOk(c) && sampleRate > 0
    requires q' >= MinQ && freq' >= MinFreq
    requires IsRC(t) ==> freq' >= 50.0
  {
    var ratio := SampleRatio(sampleRate);
    if IsRC(t) then
      var (a, b, cc) := OnePole(1.0 / (freq' * TwoPi), ratio * 0.25);
      c.(rca := a, rcb := b, rcc := cc, rcq := q' * 0.25)
    else if IsFormant(t) then
      var (f0, f1) := FormantLookup(freq');
      var sr := if t == FastFormant then ratio else ratio * 0.25;
      var (a0, b0, c0) := OnePole(1.0 / (f0 * TwoPi), sr);
      var (a1, b1, c1) := OnePole(1.0 / (f1 * TwoPi), sr);
      c.(vfq := q' * 0.25,
         vfa := c.vfa[0 := a0][1 := a1],
         vfb := c.vfb[0 := b0][1 := b1],
         vfc := c.vfc[0 := c0][1 := c1])
    else if IsLadder(t) then
      var f := freq' * ratio;
      var p := (3.6 - 3.2 * f) * f;
      c.(p := p, k := 2.0 * p - 1.0, r := q' * m.powf(E, (1.0 - p) * 1.386249))
    else if t == Tripole then
      var f := freq' * ratio * 0.25;
      var p := (3.6 - 3.2 * f) * f;
      c.(p := p, k := 2.0 * p - 1.0, r := q' * 0.1 * m.powf(E, (1.0 - p) * 1.386249))
    else if IsSV(t) then
      var f := m.sinf(freq' * ratio * Pi);
      c.(svf1 := QMin(f, 0.825), svf2 := QMin(f * 2.0, 0.825), svq := QMax(0.0001, 2.0 - q' * 0.1995))
    else if t == HexLP then
      var f := freq' * ratio;
      var lb := m.expf(-1.0 * Pi * f);
      var hb := -m.expf(-1.0 * Pi * (0.5 - f * 0.995));
      c.(q := q' * 0.314, lb := lb, la := 1.0 - lb, hb := hb, ha := 1.0 + hb)
    else
      var omega := TwoPi * freq' * ratio;
      Biquad(t, c, m.sinf(omega) * 0.5, m.cosf(omega), q')
  }

  /** The biquad branch, from half the sine and the cosine of the normalised
      angular frequency and the floored Q (the cookbook formulas). */
  function Biquad(t: int, c: Coeffs, tsin: real, tcos: real, q': real): (r: Coeffs)
    requires q' >= MinQ
    ensures r == c.(b0a0 := r.b0a0, b1a0 := r.b1a0, b2a0 := r.b2a0, a1a0 := r.a1a0, a2a0 := r.a2a0)
    ensures t == LowPass ==> r.b0a0 == r.b2a0 && r.b1a0 == 2.0 * r.b0a0
    ensures t == HiPass ==> r.b0a0 == r.b2a0 && r.b1a0 == -2.0 * r.b0a0
    ensures t == BandPassCSG || t == BandPassCZPG ==> r.b1a0 == 0.0 && r.b2a0 == -r.b0a0
    ensures t == Notch ==> r.b1a0 == r.a1a0 && r.b0a0 == r.b2a0
    ensures t == AllPass ==> r.b1a0 == r.a1a0 && r.b0a0 == r.a2a0 && r.b2a0 == 1.0
    ensures !(LowPass <= t <= AllPass) ==> r.b0a0 == c.b0a0 && r.b1a0 == c.b1a0 && r.b2a0 == c.b2a0
  {
    var alpha := tsin / q';
    var a0 := SafeDiv(1.0, 1.0 + alpha);
    var a1a0 := -2.0 * tcos * a0;
    var a2a0 := (1.0 - alpha) * a0;
    var c' := c.(a1a0 := a1a0, a2a0 := a2a0);
    if t == LowPass then
      var b1 := (1.0 - tcos) * a0;
      c'.(b1a0 := b1, b0a0 := b1 * 0.5, b2a0 := b1 * 0.5)
    else if t == HiPass then
      var b1 := (-1.0 - tcos) * a0;
      c'.(b1a0 := b1, b0a0 := b1 * -0.5, b2a0 := b1 * -0.5)
    else if t == BandPassCSG then
      c'.(b1a0 := 0.0, b0a0 := tsin * a0, b2a0 := -(tsin * a0))
    else if t == BandPassCZPG then
      c'.(b1a0 := 0.0, b0a0 := alpha * a0, b2a0 := -(alpha * a0))
    else if t == Notch then
      c'.(b1a0 := a1a0, b0a0 := a0, b2a0 := a0)
    else if t == AllPass then
      c'.(b1a0 := a1a0, b0a0 := a2a0, b2a0 := 1.0)
    else c'
  }

  /** Only the clamped inputs matter: computing from already-clamped cutoff
      and resonance gives the same coefficients. */
  lemma ComputeSeesOnlyClampedInputs(t: int, c: Coeffs, sampleRate: nat, m: Math, freq: real, q: real)
    requires CoeffsOk(c) && sampleRate > 0
    ensures Compute(t, c, sampleRate, m, freq, q)
      == Compute(t, c, sampleRate, m, EffectiveFreq(t, freq), EffectiveQ(q))
  {
    EffectiveFreqWindow(t, freq);
    assert EffectiveFreq(t, EffectiveFreq(t, freq)) == EffectiveFreq(t, freq);
    assert EffectiveQ(EffectiveQ(q)) == EffectiveQ(q);
  }

  /** Recomputing with the same parameters changes nothing more. */
  lemma ComputeIdempotent(t: int, c: Coeffs, sampleRate: nat, m: Math, freq: real, q: real)
    requires CoeffsOk(c) && sampleRate > 0
    ensures var c1 := Compute(t, c, sampleRate, m, freq, q);
      Compute(t, c1, sampleRate, m, freq, q) == c1
  {
  }

  /** The numerator and denominator of the biquad's transfer function at
      z = 1 (DC) and z = -1 (Nyquist). */
  function NumAt(c: Coeffs, z: real): real { c.b0a0 + c.b1a0 * z + c.b2a0 * z * z }
  function DenAt(c: Coeffs, z: real): real { 1.0 + c.a1a0 * z + c.a2a0 * z * z }

  /** The shared denominator of every biquad design at the band edges:
      with a0 = 1 / (1 + alpha), 1 + a1 + a2 and 1 - a1 + a2 reduce to
      2 a0 (1 - cos) and 2 a0 (1 + cos). */
  lemma NormalisedDenominator(alpha: real, tcos: real)
    requires 1.0 + alpha != 0.0
    ensures var a0 := 1.0 / (1.0 + alpha);
      && 1.0 + -2.0 * tcos * a0 + (1.0 - alpha) * a0 == 2.0 * a0 - 2.0 * tcos * a0
      && 1.0 + 2.0 * tcos * a0 + (1.0 - alpha) * a0 == 2.0 * a0 + 2.0 * tcos * a0
  {
    var a0 := 1.0 / (1.0 + alpha);
    assert (1.0 - alpha) * a0 == a0 - alpha * a0;
    assert a0 + alpha * a0 == 1.0 by {
      assert a0 * (1.0 + alpha) == 1.0;
    }
  }

  /** The low-pass passes DC at unity gain and has its zero at Nyquist.
      This and the three lemmas after it hold for every value sinf and cosf
      may return, as long as the normalising 1 + alpha is not zero. */
  lemma BiquadLowPassEdges(c: Coeffs, tsin: real, tcos: real, q': real)
    requires q' >= MinQ
    requires 1.0 + tsin / q' != 0.0
    ensures var r := Biquad(LowPass, c, tsin, tcos, q');
      NumAt(r, -1.0) == 0.0 && NumAt(r, 1.0) == DenAt(r, 1.0)
  {
    NormalisedDenominator(tsin / q', tcos);
  }

  /** The high-pass passes Nyquist at unity gain and has its zero at DC. */
  lemma BiquadHiPassEdges(c: Coeffs, tsin: real, tcos: real, q': real)
    requires q' >= MinQ
    requires 1.0 + tsin / q' != 0.0
    ensures var r := Biquad(HiPass, c, tsin, tcos, q');
      NumAt(r, 1.0) == 0.0 && NumAt(r, -1.0) == DenAt(r, -1.0)
  {
    NormalisedDenominator(tsin / q', tcos);
  }

  /** The notch passes both DC and Nyquist at unity gain. */
  lemma BiquadNotchEdges(c: Coeffs, tsin: real, tcos: real, q': real)
    requires q' >= MinQ
    requires 1.0 + tsin / q' != 0.0
    ensures var r := Biquad(Notch, c, tsin, tcos, q');
      NumAt(r, 1.0) == DenAt(r, 1.0) && NumAt(r, -1.0) == DenAt(r, -1.0)
  {
    NormalisedDenominator(tsin / q', tcos);
  }

  /** Both band-passes reject DC and Nyquist. */
  lemma BiquadBandPassEdges(t: int, c: Coeffs, tsin: real, tcos: real, q': real)
    requires t == BandPassCSG || t == BandPassCZPG
    requires q' >= MinQ
    ensures var r := Biquad(t, c, tsin, tcos, q');
      NumAt(r, 1.0) == 0.0 && NumAt(r, -1.0) == 0.0
  {
  }
}
