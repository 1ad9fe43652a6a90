/** The data of basicFilters<CHANNELS> (basic_filters.h): the topology
    numbering, the per-channel history registers and the coefficient set
    shared by all channels. Samples and coefficients are reals. */
module FilterState {

  // The FilterTypes enumeration. m_type keeps whatever integer
  // setFilterType was given, so a type is an `int`.
  const LowPass: int := 0
  const HiPass: int := 1
  const BandPassCSG: int := 2
  const BandPassCZPG: int := 3
  const Notch: int := 4
  const AllPass: int := 5
  const Moog: int := 6
  const DoubleLowPass: int := 7
  const LowpassRC12: int := 8
  const BandpassRC12: int := 9
  const HighpassRC12: int := 10
  const LowpassRC24: int := 11
  const BandpassRC24: int := 12
  const HighpassRC24: int := 13
  const FormantFilter: int := 14
  const DoubleMoog: int := 15
  const LowpassSV: int := 16
  const BandpassSV: int := 17
  const HighpassSV: int := 18
  const NotchSV: int := 19
  const FastFormant: int := 20
  const Tripole: int := 21
  const HexLP: int := 22
  const NumFilters: int := 23

  predicate IsRC(t: int) { LowpassRC12 <= t <= HighpassRC24 }
  predicate IsFormant(t: int) { t == FormantFilter || t == FastFormant }
  predicate IsSV(t: int) { LowpassSV <= t <= NotchSV }

  /** One simulated RC stage: lowpass, bandpass and highpass taps and the last
      input (m_rclp0, m_rcbp0, m_rchp0, m_rclast0 and the "1" set). */
  datatype RcStage = RcStage(lp: real, bp: real, hp: real, last: real)

  /** One formant band-pass stage (m_vfbp[i], m_vfhp[i], m_vflast[i]). */
  datatype VfStage = VfStage(bp: real, hp: real, last: real)

  /** All history registers of one channel. */
  datatype History = History(
    // transposed biquad
    z1: real, z2: real,
    // Moog, Tripole and Hex ladder stages
    y1: real, y2: real, y3: real, y4: real,
    oldx: real, oldy1: real, oldy2: real, oldy3: real,
    y5: real, y6: real,
    // Tripole's previous input
    last: real,
    // RC 12/24 dB stages
    rc0: RcStage, rc1: RcStage,
    // the six formant stages
    vf: seq<VfStage>,
    // state-variable delays and envelope follower
    delay1: real, delay2: real, delay3: real, delay4: real, sva: real)

  predicate HistoryOk(h: History) {
    |h.vf| == 6
  }

  const ZeroRc: RcStage := RcStage(0.0, 0.0, 0.0, 0.0)
  const ZeroVf: VfStage := VfStage(0.0, 0.0, 0.0)

  /** The channel history clearHistory leaves behind. */
  const ZeroHistory: History := History(
    0.0, 0.0,
    0.0, 0.0, 0.0, 0.0,
    0.0, 0.0, 0.0, 0.0,
    0.0, 0.0,
    0.0,
    ZeroRc, ZeroRc,
    [ZeroVf, ZeroVf, ZeroVf, ZeroVf, ZeroVf, ZeroVf],
    0.0, 0.0, 0.0, 0.0, 0.0)

  predicate IsZeroVf(s: VfStage) {
    s.bp == 0.0 && s.hp == 0.0 && s.last == 0.0
  }

  /** Every register of the channel is 0 (the reference for ZeroHistory). */
  predicate IsZero(h: History) {
    && h.z1 == 0.0 && h.z2 == 0.0
    && h.y1 == 0.0 && h.y2 == 0.0 && h.y3 == 0.0 && h.y4 == 0.0
    && h.oldx == 0.0 && h.oldy1 == 0.0 && h.oldy2 == 0.0 && h.oldy3 == 0.0
    && h.y5 == 0.0 && h.y6 == 0.0 && h.last == 0.0
    && h.rc0 == ZeroRc && h.rc1 == ZeroRc
    && |h.vf| == 6 && (forall i :: 0 <= i < 6 ==> IsZeroVf(h.vf[i]))
    && h.delay1 == 0.0 && h.delay2 == 0.0 && h.delay3 == 0.0 && h.delay4 == 0.0
    && h.sva == 0.0
  }

  /** ZeroHistory is the one all-zero history. */
  lemma ZeroHistoryIsZero(h: History)
    ensures IsZero(ZeroHistory)
    ensures IsZero(h) ==> h == ZeroHistory
  {
    if IsZero(h) {
      assert h.vf == ZeroHistory.vf by {
        forall i | 0 <= i < 6 ensures h.vf[i] == ZeroVf {
          assert IsZeroVf(h.vf[i]);
        }
      }
    }
  }

  /** The coefficients shared by all channels. */
  datatype Coeffs = Coeffs(
    // biquad, normalised by a0
    b0a0: real, b1a0: real, b2a0: real, a1a0: real, a2a0: real,
    // Moog and Tripole
    r: real, p: real, k: real,
    // Hex
    la: real, lb: real, ha: real, hb: real, q: real,
    // RC
    rca: real, rcb: real, rcc: real, rcq: real,
    // formant: arrays of four, of which entries 0 and 1 are used
    vfa: seq<real>, vfb: seq<real>, vfc: seq<real>, vfq: real,
    // state-variable
    svf1: real, svf2: real, svq: real, svsr: real)

  predicate CoeffsOk(c: Coeffs) {
    |c.vfa| == 4 && |c.vfb| == 4 && |c.vfc| == 4
  }
}
