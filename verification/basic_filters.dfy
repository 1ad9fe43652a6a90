/** basicFilters<CHANNELS> (basic_filters.h): a multi-topology filter with
    per-channel history, shared coefficients and an optional owned sub-filter
    through which the DoubleLowPass and DoubleMoog types run a second stage. */
module BasicFilters {
  import opened Wrappers
  import opened Numeric
  import opened FilterState
  import opened FilterTopologies
  import FilterCoeffs

  /** One filter instance. `sub` is the lazily created cascade stage; the
      channel count is |hist| and never changes. */
  datatype Filter = Filter(
    typ: int,
    cascade: bool,
    sampleRate: nat,
    co: Coeffs,
    hist: seq<History>,
    sub: Option<Filter>)

  /** The shape every instance keeps, leaving aside the sub-filter. */
  predicate Shaped(f: Filter) {
    && f.sampleRate > 0
    && CoeffsOk(f.co)
    && forall i :: 0 <= i < |f.hist| ==> HistoryOk(f.hist[i])
  }

  /** The object invariant: a cascading filter has its sub-filter; a
      sub-filter has the same channel count and sample rate, never cascades
      itself and owns no sub-filter of its own. */
  predicate Valid(f: Filter) {
    && Shaped(f)
    && (f.cascade ==> f.sub.Some? && (f.typ == LowPass || f.typ == Moog) && f.sub.value.typ == f.typ)
    && (f.sub.Some? ==>
          var s := f.sub.value;
          && Shaped(s)
          && !s.cascade
          && s.sub.None?
          && |s.hist| == |f.hist|
          && s.sampleRate == f.sampleRate)
  }

  /** The constructor. m_type and the coefficients are left uninitialised
      by the C++ code; `typ0` and `co0` stand for those indeterminate values.
      Only m_svsr is computed, and clearHistory runs. */
  function New(channels: nat, sampleRate: nat, m: Math, typ0: int, co0: Coeffs): (f: Filter)
    requires sampleRate > 0 && CoeffsOk(co0)
    ensures Valid(f) && !f.cascade && f.sub.None?
    ensures |f.hist| == channels
    ensures forall i :: 0 <= i < channels ==> IsZero(f.hist[i])
    ensures f.co.svsr == 1.0 - m.expf(-4646.39874051 / sampleRate as real)
  {
    ZeroHistoryIsZero(ZeroHistory);
    Filter(typ0, false, sampleRate,
           co0.(svsr := 1.0 - m.expf(-4646.39874051 / sampleRate as real)),
           seq(channels, _ => ZeroHistory), None)
  }

  /** setFilterType. `blank` stands for the indeterminate coefficients of a
      newly allocated sub-filter. */
  function SetFilterType(f: Filter, idx: int, m: Math, blank: Coeffs): (f': Filter)
    requires Valid(f) && CoeffsOk(blank)
    ensures Valid(f')
    ensures f'.cascade <==> (idx == DoubleLowPass || idx == DoubleMoog)
    ensures idx == DoubleLowPass ==> f'.typ == LowPass
    ensures idx == DoubleMoog ==> f'.typ == Moog
    ensures !f'.cascade ==> f'.typ == idx && f'.sub == f.sub
    ensures f'.cascade ==> f'.sub.Some? && f'.sub.value.typ == f'.typ && !f'.sub.value.cascade
    ensures f'.cascade && f.sub.Some? ==> f'.sub == Some(f.sub.value.(typ := f'.typ))
    ensures f'.co == f.co && f'.hist == f.hist && f'.sampleRate == f.sampleRate
  {
    var cascade := idx == DoubleLowPass || idx == DoubleMoog;
    if !cascade then
      f.(cascade := false, typ := idx)
    else
      var t := if idx == DoubleLowPass then LowPass else Moog;
      var s := if f.sub.None? then New(|f.hist|, f.sampleRate, m, t, blank) else f.sub.value;
      f.(cascade := true, typ := t, sub := Some(s.(typ := t)))
  }

  /** clearHistory: every register of every channel becomes 0. The
      sub-filter's registers are not touched. */
  function ClearHistory(f: Filter): (f': Filter)
    requires Valid(f)
    ensures Valid(f')
    ensures |f'.hist| == |f.hist|
    ensures forall i :: 0 <= i < |f'.hist| ==> IsZero(f'.hist[i])
    ensures f'.typ == f.typ && f'.cascade == f.cascade && f'.co == f.co
    ensures f'.sampleRate == f.sampleRate && f'.sub == f.sub
  {
    ZeroHistoryIsZero(ZeroHistory);
    f.(hist := seq(|f.hist|, _ => ZeroHistory))
  }

  /** update: advance channel `ch` by one sample. A case that falls through
      (Moog or a biquad) feeds the sub-filter when cascading; the recursion is
      at most one level deep because the sub-filter never cascades. */
  function Update(f: Filter, m: Math, in0: real, ch: nat): (r: (Filter, real))
    requires Valid(f) && ch < |f.hist|
    ensures Valid(r.0)
    ensures r.0.typ == f.typ && r.0.cascade == f.cascade && r.0.co == f.co
    ensures r.0.sampleRate == f.sampleRate && |r.0.hist| == |f.hist|
    ensures forall i :: 0 <= i < |f.hist| && i != ch ==> r.0.hist[i] == f.hist[i]
    ensures f.sub.Some? <==> r.0.sub.Some?
    ensures r.0.sub.Some? ==>
      var s := f.sub.value;
      var s' := r.0.sub.value;
      s'.typ == s.typ && s'.co == s.co && s'.sampleRate == s.sampleRate &&
      forall i :: 0 <= i < |s.hist| && i != ch ==> s'.hist[i] == s.hist[i]
    decreases f
  {
    var st := Step(f.typ, f.hist[ch], f.co, in0, m.atanf);
    var f1 := f.(hist := f.hist[ch := st.h]);
    if st.fallsThrough && f.cascade then
      var (s', out) := Update(f.sub.value, m, st.out, ch);
      (f1.(sub := Some(s')), out)
    else
      (f1, st.out)
  }

  /** `update` applied to each sample of a block in turn, on one channel. */
  function UpdateBlock(f: Filter, m: Math, xs: seq<real>, ch: nat): (r: (Filter, seq<real>))
    requires Valid(f) && ch < |f.hist|
    ensures Valid(r.0) && |r.0.hist| == |f.hist| && |r.1| == |xs|
    ensures r.0.typ == f.typ && r.0.cascade == f.cascade && r.0.co == f.co
    ensures f.sub.Some? <==> r.0.sub.Some?
    decreases |xs|
  {
    if xs == [] then (f, [])
    else
      var (f1, y) := Update(f, m, xs[0], ch);
      var (f2, ys) := UpdateBlock(f1, m, xs[1..], ch);
      (f2, [y] + ys)
  }

  /** calcFilterCoeffs: recompute this filter's coefficients and, when
      cascading, copy the Moog (r, p, k) or biquad coefficients into the
      sub-filter. History, type and cascade flag are left alone. */
  function CalcFilterCoeffs(f: Filter, m: Math, freq: real, q: real): (f': Filter)
    requires Valid(f)
    ensures Valid(f')
    ensures f'.co == FilterCoeffs.Compute(f.typ, f.co, f.sampleRate, m, freq, q)
    ensures f'.typ == f.typ && f'.cascade == f.cascade && f'.hist == f.hist
    ensures f'.sampleRate == f.sampleRate && f.sub.Some? == f'.sub.Some?
    ensures f'.sub.Some? ==>
      var s := f.sub.value;
      var s' := f'.sub.value;
      && s'.typ == s.typ && s'.hist == s.hist && s'.cascade == s.cascade
      && (f.cascade && FilterCoeffs.IsLadder(f.typ) ==>
            s'.co == s.co.(r := f'.co.r, p := f'.co.p, k := f'.co.k))
      && (f.cascade && FilterCoeffs.IsBiquadBranch(f.typ) ==>
            s'.co == s.co.(b0a0 := f'.co.b0a0, b1a0 := f'.co.b1a0, b2a0 := f'.co.b2a0,
                           a1a0 := f'.co.a1a0, a2a0 := f'.co.a2a0))
      && (!f.cascade || !(FilterCoeffs.IsLadder(f.typ) || FilterCoeffs.IsBiquadBranch(f.typ)) ==> s' == s)
  {
    var c := FilterCoeffs.Compute(f.typ, f.co, f.sampleRate, m, freq, q);
    var f1 := f.(co := c);
    if f.cascade && FilterCoeffs.IsLadder(f.typ) then
      var s := f.sub.value;
      f1.(sub := Some(s.(co := s.co.(r := c.r, p := c.p, k := c.k))))
    else if f.cascade && FilterCoeffs.IsBiquadBranch(f.typ) then
      var s := f.sub.value;
      f1.(sub := Some(s.(co := s.co.(b0a0 := c.b0a0, b1a0 := c.b1a0, b2a0 := c.b2a0,
                                    a1a0 := c.a1a0, a2a0 := c.a2a0))))
    else f1
  }
}
