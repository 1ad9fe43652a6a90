/** The integer and fraction helpers of lmms_math.h: the portable `rand`
    linear congruential generator of section 7.20.2.2 of ISO/IEC 9899:1999
    (fast_rand), and the float fraction helpers of the non-Intel build. */
module LmmsMath {
  import opened Numeric

  const FastRandMax: int := 32767
  const RandMultiplier: int := 1103515245
  const RandIncrement: int := 12345

  /** The width of C's `unsigned long`, which differs between platforms. */
  datatype LongWidth = Bits32 | Bits64

  function Modulus(w: LongWidth): (m: nat)
    ensures m > 0
  {
    match w
    case Bits32 => 0x1_0000_0000
    case Bits64 => 0x1_0000_0000_0000_0000
  }

  /** The generator's hidden state (`static unsigned long next`), made an
      explicit value that the caller threads through. */
  datatype RandState = RandState(width: LongWidth, next: nat)

  predicate ValidState(s: RandState) {
    s.next < Modulus(s.width)
  }

  /** The state before the first call. */
  function Seeded(w: LongWidth): (s: RandState)
    ensures ValidState(s) && s.next == 1
  {
    RandState(w, 1)
  }

  /** One call of fast_rand: advance the state with unsigned wrap-around, then
      return `(unsigned)(next / 65536) % 32768`. */
  function FastRand(s: RandState): (r: (RandState, int))
    requires ValidState(s)
    ensures ValidState(r.0) && r.0.width == s.width
    ensures 0 <= r.1 <= FastRandMax
    ensures r.1 == (r.0.next % 0x8000_0000) / 65536
  {
    var next := (s.next * RandMultiplier + RandIncrement) % Modulus(s.width);
    OutputIsBits16To30(next);
    (RandState(s.width, next), ((next / 65536) % 0x1_0000_0000) % 32768)
  }

  /** The returned number is bits 16..30 of the new state: the cast to a 32-bit
      `unsigned` and the final `% 32768` only keep those bits. */
  lemma OutputIsBits16To30(next: nat)
    ensures ((next / 65536) % 0x1_0000_0000) % 32768 == (next % 0x8000_0000) / 65536
  {
    var q := next / 0x8000_0000;
    var lo := next % 0x8000_0000;
    assert next == q * 0x8000_0000 + lo;
    assert next / 65536 == q * 32768 + lo / 65536;
    var a := next / 65536;
    assert a % 0x1_0000_0000 % 32768 == a % 32768;
    assert a % 32768 == lo / 65536;
  }

  /** The outputs of `n` successive calls. */
  function RandSequence(s: RandState, n: nat): (out: seq<int>)
    requires ValidState(s)
    ensures |out| == n
    ensures forall i :: 0 <= i < n ==> 0 <= out[i] <= FastRandMax
    decreases n
  {
    if n == 0 then [] else
      var (s', x) := FastRand(s);
      [x] + RandSequence(s', n - 1)
  }

  /** The first call after start-up returns 16838, on either platform. */
  lemma FirstCallIs16838(w: LongWidth)
    ensures FastRand(Seeded(w)).1 == 16838
  {
  }

  /** Reducing the 64-bit state modulo 2^32 gives the 32-bit state: the
      recurrence commutes with reduction modulo 2^32. */
  lemma StepCommutesWithReduction(a: nat)
    ensures ((a * RandMultiplier + RandIncrement) % 0x1_0000_0000_0000_0000) % 0x1_0000_0000
      == ((a % 0x1_0000_0000) * RandMultiplier + RandIncrement) % 0x1_0000_0000
  {
    var x := a * RandMultiplier + RandIncrement;
    var y := (a % 0x1_0000_0000) * RandMultiplier + RandIncrement;
    var hi := a / 0x1_0000_0000;
    assert a == hi * 0x1_0000_0000 + a % 0x1_0000_0000;
    assert x == y + (hi * RandMultiplier) * 0x1_0000_0000 by {
      assert a * RandMultiplier == (hi * 0x1_0000_0000) * RandMultiplier + (a % 0x1_0000_0000) * RandMultiplier;
    }
    ModOfMod(x);
    ModAddMultiple(y, hi * RandMultiplier);
  }

  lemma ModOfMod(x: int)
    ensures (x % 0x1_0000_0000_0000_0000) % 0x1_0000_0000 == x % 0x1_0000_0000
  {
    var q := x / 0x1_0000_0000_0000_0000;
    assert x == q * 0x1_0000_0000_0000_0000 + x % 0x1_0000_0000_0000_0000;
    ModAddMultiple(x % 0x1_0000_0000_0000_0000, q * 0x1_0000_0000);
  }

  lemma ModAddMultiple(y: int, k: int)
    ensures (y + k * 0x1_0000_0000) % 0x1_0000_0000 == y % 0x1_0000_0000
  {
  }

  /** Whether `unsigned long` is 32 or 64 bits wide, fast_rand produces the
      same numbers: only bits below 31 of the state are ever observed. */
  lemma {:induction false} WidthDoesNotMatter(s32: RandState, s64: RandState, n: nat)
    requires s32.width == Bits32 && s64.width == Bits64
    requires ValidState(s32) && ValidState(s64)
    requires s64.next % 0x1_0000_0000 == s32.next
    ensures RandSequence(s32, n) == RandSequence(s64, n)
    decreases n
  {
    if n > 0 {
      var r32 := FastRand(s32);
      var r64 := FastRand(s64);
      StepCommutesWithReduction(s64.next);
      assert r64.0.next % 0x1_0000_0000 == r32.0.next;
      LowBitsAgree(r32.0.next, r64.0.next);
      WidthDoesNotMatter(r32.0, r64.0, n - 1);
    }
  }

  lemma LowBitsAgree(a: int, b: int)
    requires b % 0x1_0000_0000 == a
    ensures a % 0x8000_0000 == b % 0x8000_0000
  {
    var q := b / 0x1_0000_0000;
    assert b == q * 0x1_0000_0000 + a;
    assert b == (2 * q) * 0x8000_0000 + a;
  }

  /** From start-up the two platforms agree on every prefix of the stream. */
  lemma SeededStreamsAgree(n: nat)
    ensures RandSequence(Seeded(Bits32), n) == RandSequence(Seeded(Bits64), n)
  {
    WidthDoesNotMatter(Seeded(Bits32), Seeded(Bits64), n);
  }

  /** The float-to-int conversions below are defined only when the truncated
      value fits in a 32-bit `int`. */
  predicate FitsInt(x: real) {
    -2147483649.0 < x < 2147483648.0
  }

  /** fraction(x) = x - (int)x: the part of `x` after the point, carrying the
      sign of `x`. */
  function Fraction(x: real): (r: real)
    requires FitsInt(x)
    ensures -1.0 < r < 1.0
    ensures r == 0.0 || (r > 0.0 <==> x > 0.0)
  {
    x - Trunc(x) as real
  }

  /** What fraction removes is a whole number. */
  lemma FractionRemovesWholePart(x: real)
    requires FitsInt(x)
    ensures (x - Fraction(x)).Floor as real == x - Fraction(x)
  {
    assert x - Fraction(x) == Trunc(x) as real;
  }

  /** absFraction(x) of the non-Intel build: x - (int)x for x >= 0 and
      x - ((int)x - 1) below zero. Subtracting 1 from INT_MIN would overflow,
      so `x` must lie above -2^31. */
  function AbsFraction(x: real): (r: real)
    requires -2147483648.0 < x < 2147483648.0
    ensures 0.0 <= r <= 1.0
  {
    x - (if x >= 0.0 then Trunc(x) as real else (Trunc(x) - 1) as real)
  }

  /** absFraction is fraction shifted up by one below zero. */
  lemma AbsFractionFromFraction(x: real)
    requires -2147483648.0 < x < 2147483648.0
    ensures x >= 0.0 ==> AbsFraction(x) == Fraction(x)
    ensures x < 0.0 ==> AbsFraction(x) == Fraction(x) + 1.0
  {
  }

  /** absFraction agrees with x - floor(x), which lies in [0, 1), except at
      negative integers, where it returns 1 instead of 0. */
  lemma AbsFractionIsFloorFraction(x: real)
    requires -2147483648.0 < x < 2147483648.0
    ensures x >= 0.0 || x != x.Floor as real ==> AbsFraction(x) == x - x.Floor as real
    ensures x < 0.0 && x == x.Floor as real ==> AbsFraction(x) == 1.0
    ensures AbsFraction(x) < 1.0 <==> (x >= 0.0 || x != x.Floor as real)
  {
    var f := x.Floor;
    if x < 0.0 {
      var g := (-x).Floor;
      if x == f as real {
        assert g == -f;
      } else {
        assert g == -f - 1;
      }
    }
  }
}
