/** Properties of the filter bank that relate several operations or hold for
    every coefficient set: silence in gives silence out from cleared history,
    and the clamps bound the ladder, RC and formant registers whatever the
    coefficients and input. */
module FilterProperties {
  import opened Wrappers
  import opened Numeric
  import opened FilterState
  import opened FilterTopologies
  import opened BasicFilters

  /** Channel `ch` of the filter, and of its sub-filter when it cascades, is
      all zero. */
  predicate Silent(f: Filter, ch: nat)
    requires Valid(f) && ch < |f.hist|
  {
    IsZero(f.hist[ch]) && (f.cascade ==> IsZero(f.sub.value.hist[ch]))
  }

  /** From zero history, input 0 gives output 0 and leaves the history at 0,
      for every topology (given atan(0) = 0). */
  lemma ZeroInZeroOut(f: Filter, m: Math, ch: nat)
    requires Valid(f) && ch < |f.hist| && Silent(f, ch)
    requires m.atanf(0.0) == 0.0
    ensures var (f', y) := Update(f, m, 0.0, ch);
      y == 0.0 && Silent(f', ch)
  {
    ZeroHistoryIsZero(f.hist[ch]);
    if f.cascade {
      ZeroHistoryIsZero(f.sub.value.hist[ch]);
    }
    ZeroHistoryIsZero(ZeroHistory);
  }

  /** A silent block through a silent filter comes out silent, however long. */
  lemma {:induction false} ZeroBlockZeroOut(f: Filter, m: Math, xs: seq<real>, ch: nat)
    requires Valid(f) && ch < |f.hist| && Silent(f, ch)
    requires m.atanf(0.0) == 0.0
    requires forall i :: 0 <= i < |xs| ==> xs[i] == 0.0
    ensures var (f', ys) := UpdateBlock(f, m, xs, ch);
      Silent(f', ch) && forall i :: 0 <= i < |ys| ==> ys[i] == 0.0
    decreases |xs|
  {
    if xs != [] {
      ZeroInZeroOut(f, m, ch);
      var (f1, y) := Update(f, m, xs[0], ch);
      ZeroBlockZeroOut(f1, m, xs[1..], ch);
    }
  }

  /** clearHistory does not reach the sub-filter: after it, silence in gives
      silence out exactly when the sub-filter's history for that channel was
      already zero (or the filter does not cascade). */
  lemma ClearedFilterIsSilent(f: Filter, ch: nat)
    requires Valid(f) && ch < |f.hist|
    ensures Silent(ClearHistory(f), ch) <==> (!f.cascade || IsZero(f.sub.value.hist[ch]))
  {
  }

  /** A freshly constructed filter, and one whose sub-filter has never run,
      is silent on every channel. */
  lemma NewFilterIsSilent(channels: nat, sampleRate: nat, m: Math, t: int, co: Coeffs, ch: nat)
    requires sampleRate > 0 && CoeffsOk(co) && ch < channels
    ensures Silent(New(channels, sampleRate, m, t, co), ch)
  {
  }

  predicate LadderBounded(h: History) {
    InLadderRange(h.y1) && InLadderRange(h.y2) && InLadderRange(h.y3) && InLadderRange(h.y4)
  }

  /** After any Moog update the four ladder stages of the channel lie in
      [-10, 10], in the filter and in its cascade stage. */
  lemma MoogStagesBounded(f: Filter, m: Math, in0: real, ch: nat)
    requires Valid(f) && ch < |f.hist| && f.typ == Moog
    ensures var (f', _) := Update(f, m, in0, ch);
      LadderBounded(f'.hist[ch]) && (f'.cascade ==> LadderBounded(f'.sub.value.hist[ch]))
  {
  }

  /** After any Tripole update its three stages lie in [-10, 10]. */
  lemma TripoleStagesBounded(f: Filter, m: Math, in0: real, ch: nat)
    requires Valid(f) && ch < |f.hist| && f.typ == Tripole
    ensures var (f', _) := Update(f, m, in0, ch);
      InLadderRange(f'.hist[ch].y1) && InLadderRange(f'.hist[ch].y2) && InLadderRange(f'.hist[ch].y3)
  {
  }

  /** The RC registers of both stages stay in [-1, 1], and so does the output. */
  lemma RcRegistersBounded(f: Filter, m: Math, in0: real, ch: nat)
    requires Valid(f) && ch < |f.hist| && IsRC(f.typ)
    requires RcBounded(f.hist[ch].rc0) && RcBounded(f.hist[ch].rc1)
    ensures var (f', y) := Update(f, m, in0, ch);
      RcBounded(f'.hist[ch].rc0) && RcBounded(f'.hist[ch].rc1) && InUnitRange(y)
  {
  }

  /** Zeroed history starts inside the RC bounds. */
  lemma ClearedRcBounded(f: Filter, ch: nat)
    requires Valid(f) && ch < |f.hist|
    ensures var h := ClearHistory(f).hist[ch];
      RcBounded(h.rc0) && RcBounded(h.rc1)
  {
    ZeroHistoryIsZero(ClearHistory(f).hist[ch]);
  }

  /** RC filtering of a whole block keeps the registers and every output
      sample in [-1, 1]. */
  lemma {:induction false} RcBlockBounded(f: Filter, m: Math, xs: seq<real>, ch: nat)
    requires Valid(f) && ch < |f.hist| && IsRC(f.typ)
    requires RcBounded(f.hist[ch].rc0) && RcBounded(f.hist[ch].rc1)
    ensures var (f', ys) := UpdateBlock(f, m, xs, ch);
      && RcBounded(f'.hist[ch].rc0) && RcBounded(f'.hist[ch].rc1)
      && forall i :: 0 <= i < |ys| ==> InUnitRange(ys[i])
    decreases |xs|
  {
    if xs != [] {
      RcRegistersBounded(f, m, xs[0], ch);
      var (f1, y) := Update(f, m, xs[0], ch);
      RcBlockBounded(f1, m, xs[1..], ch);
    }
  }

  /** After any formant update every formant register lies in [-1, 1] and the
      output in [-4, 4]. */
  lemma FormantRegistersBounded(f: Filter, m: Math, in0: real, ch: nat)
    requires Valid(f) && ch < |f.hist| && IsFormant(f.typ)
    ensures var (f', y) := Update(f, m, in0, ch);
      && |f'.hist[ch].vf| == 6
      && (forall i :: 0 <= i < 6 ==> VfBounded(f'.hist[ch].vf[i]))
      && -4.0 <= y <= 4.0
  {
  }

  // ------------------------------------------------- reachable RC bound

  /** The RC registers of every channel lie in [-1, 1]. */
  predicate RcInvariant(f: Filter) {
    forall ch :: 0 <= ch < |f.hist| ==> RcBounded(f.hist[ch].rc0) && RcBounded(f.hist[ch].rc1)
  }

  /** The constructor establishes the RC invariant. */
  lemma NewRcBounded(channels: nat, sampleRate: nat, m: Math, t: int, co: Coeffs)
    requires sampleRate > 0 && CoeffsOk(co)
    ensures RcInvariant(New(channels, sampleRate, m, t, co))
  {
  }

  /** An update of any type keeps the RC invariant: the RC cases keep their
      registers bounded, and every other case leaves them alone. */
  lemma UpdateKeepsRcBounded(f: Filter, m: Math, in0: real, ch: nat)
    requires Valid(f) && ch < |f.hist| && RcInvariant(f)
    ensures RcInvariant(Update(f, m, in0, ch).0)
  {
    if IsRC(f.typ) {
      RcRegistersBounded(f, m, in0, ch);
    } else {
      StepKeepsRcStages(f.typ, f.hist[ch], f.co, in0, m.atanf);
      assert Update(f, m, in0, ch).0.hist[ch] == Step(f.typ, f.hist[ch], f.co, in0, m.atanf).h;
    }
  }

  /** The calls a host makes on a filter: setFilterType (with the
      indeterminate coefficients of a sub-filter it may allocate),
      calcFilterCoeffs, clearHistory and update. */
  datatype Call =
    | SetType(idx: int, blank: Coeffs)
    | CalcCoeffs(freq: real, q: real)
    | Clear
    | Tick(in0: real, ch: nat)

  /** The call is one the filter accepts: a channel it has, and a
      well-formed blank coefficient set. */
  predicate CallFits(k: Call, channels: nat) {
    && (k.SetType? ==> CoeffsOk(k.blank))
    && (k.Tick? ==> k.ch < channels)
  }

  function Apply(f: Filter, m: Math, k: Call): (r: Filter)
    requires Valid(f) && CallFits(k, |f.hist|)
    ensures Valid(r) && |r.hist| == |f.hist|
  {
    match k
    case SetType(idx, blank) => SetFilterType(f, idx, m, blank)
    case CalcCoeffs(freq, q) => CalcFilterCoeffs(f, m, freq, q)
    case Clear => ClearHistory(f)
    case Tick(in0, ch) => Update(f, m, in0, ch).0
  }

  /** The calls in order. */
  function Replay(f: Filter, m: Math, calls: seq<Call>): (r: Filter)
    requires Valid(f)
    requires forall i :: 0 <= i < |calls| ==> CallFits(calls[i], |f.hist|)
    ensures Valid(r) && |r.hist| == |f.hist|
    decreases |calls|
  {
    if calls == [] then f
    else Replay(Apply(f, m, calls[0]), m, calls[1..])
  }

  /** Every call keeps the RC invariant: setFilterType and calcFilterCoeffs
      leave the history alone, clearHistory zeroes it, and update keeps it. */
  lemma ApplyKeepsRcBounded(f: Filter, m: Math, k: Call)
    requires Valid(f) && CallFits(k, |f.hist|) && RcInvariant(f)
    ensures RcInvariant(Apply(f, m, k))
  {
    if k.Tick? {
      UpdateKeepsRcBounded(f, m, k.in0, k.ch);
    }
  }

  /** Any sequence of calls keeps the RC invariant. */
  lemma {:induction false} ReplayKeepsRcBounded(f: Filter, m: Math, calls: seq<Call>)
    requires Valid(f) && RcInvariant(f)
    requires forall i :: 0 <= i < |calls| ==> CallFits(calls[i], |f.hist|)
    ensures RcInvariant(Replay(f, m, calls))
    decreases |calls|
  {
    if calls != [] {
      ApplyKeepsRcBounded(f, m, calls[0]);
      var f1 := Apply(f, m, calls[0]);
      assert forall i :: 0 <= i < |calls[1..]| ==> CallFits(calls[1..][i], |f1.hist|) by {
        forall i | 0 <= i < |calls[1..]| ensures CallFits(calls[1..][i], |f1.hist|) {
          assert calls[1..][i] == calls[i + 1];
        }
      }
      ReplayKeepsRcBounded(f1, m, calls[1..]);
    }
  }

  /** On every filter reached from the constructor by any sequence of
      setFilterType, calcFilterCoeffs, clearHistory and update calls, the RC
      registers lie in [-1, 1], so an RC update returns a sample in [-1, 1]. */
  lemma ReachableRcBounded(channels: nat, sampleRate: nat, m: Math, t: int, co: Coeffs,
                           calls: seq<Call>, in0: real, ch: nat)
    requires sampleRate > 0 && CoeffsOk(co) && ch < channels
    requires forall i :: 0 <= i < |calls| ==> CallFits(calls[i], channels)
    ensures var f := Replay(New(channels, sampleRate, m, t, co), m, calls);
      && RcInvariant(f)
      && (IsRC(f.typ) ==> InUnitRange(Update(f, m, in0, ch).1))
  {
    var f0 := New(channels, sampleRate, m, t, co);
    NewRcBounded(channels, sampleRate, m, t, co);
    ReplayKeepsRcBounded(f0, m, calls);
    var f := Replay(f0, m, calls);
    if IsRC(f.typ) {
      RcRegistersBounded(f, m, in0, ch);
    }
  }
}
