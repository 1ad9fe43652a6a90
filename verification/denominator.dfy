/** The time-signature denominator model of DenominatorSpinBox.h: an integer
    model whose reported values are snapped onto the powers of two 1..32. */
module Denominator {

  /** VALID_VALUES: the denominators a time signature may show. */
  const ValidValues: seq<int> := [1, 2, 4, 8, 16, 32]

  predicate IsValid(v: int) {
    v in ValidValues
  }

  /** The first loop of checkValidValue: scan VALID_VALUES[i..] for `v`. */
  function ScanEqual(v: int, i: nat): (r: bool)
    requires i <= 6
    ensures r <==> v in ValidValues[i..]
    decreases 6 - i
  {
    if i == 6 then false
    else if v == ValidValues[i] then true
    else ScanEqual(v, i + 1)
  }

  /** The second loop of checkValidValue: scan VALID_VALUES[i], ..., VALID_VALUES[0]
      downwards for the first entry strictly below `v`, falling back to
      VALID_VALUES[0]. */
  function ScanBelow(v: int, i: int): (r: int)
    requires -1 <= i < 6
    ensures IsValid(r)
    ensures r < v || r == 1
    ensures forall j :: 0 <= j <= i && ValidValues[j] < v ==> ValidValues[j] <= r
    decreases i + 1
  {
    if i < 0 then ValidValues[0]
    else if v > ValidValues[i] then ValidValues[i]
    else ScanBelow(v, i - 1)
  }

  /** DenominatorModel::checkValidValue. */
  function CheckValidValue(v: int): (r: int)
    ensures IsValid(r)
  {
    if ScanEqual(v, 0) then v else ScanBelow(v, 5)
  }

  /** The snapped value is the largest valid denominator not above `v`, or 1
      when there is none: it is valid, it does not exceed `v` (unless it is the
      fallback 1), and no valid denominator lies strictly between it and `v`. */
  lemma CheckValidValueIsFloor(v: int)
    ensures var r := CheckValidValue(v);
      && IsValid(r)
      && (r <= v || r == 1)
      && (forall w :: IsValid(w) && w <= v ==> w <= r)
  {
    var r := CheckValidValue(v);
    forall w | IsValid(w) && w <= v
      ensures w <= r
    {
      if !IsValid(v) {
        var j :| 0 <= j < 6 && ValidValues[j] == w;
      }
    }
  }

  /** Members of VALID_VALUES come back unchanged; non-members round down to
      the largest member strictly below them; everything below 1 becomes 1 and
      everything above 32 becomes 32. */
  lemma CheckValidValueCases(v: int)
    ensures IsValid(v) ==> CheckValidValue(v) == v
    ensures !IsValid(v) && v > 1 ==>
      (CheckValidValue(v) < v && forall w :: IsValid(w) && w < v ==> w <= CheckValidValue(v))
    ensures v <= 1 ==> CheckValidValue(v) == 1
    ensures v >= 32 ==> CheckValidValue(v) == 32
  {
    CheckValidValueIsFloor(v);
  }

  /** Snapping twice is snapping once. */
  lemma CheckValidValueIdempotent(v: int)
    ensures CheckValidValue(CheckValidValue(v)) == CheckValidValue(v)
  {
    CheckValidValueCases(CheckValidValue(v));
  }

  /** Snapping preserves order. */
  lemma CheckValidValueMonotone(v: int, w: int)
    requires v <= w
    ensures CheckValidValue(v) <= CheckValidValue(w)
  {
    CheckValidValueIsFloor(v);
    CheckValidValueIsFloor(w);
    var rv := CheckValidValue(v);
    if rv <= v {
      assert rv <= CheckValidValue(w);
    } else {
      assert rv == 1;
    }
  }

  /** The stored state of a DenominatorModel: the IntModel's current and
      initial integers, which automation or loading may set to anything in the
      IntModel's range. */
  datatype DenominatorModel = DenominatorModel(stored: int, storedInit: int)

  /** DenominatorModel::value and initValue report the snapped stored values. */
  function Value(m: DenominatorModel): (r: int)
    ensures IsValid(r) && MinValue() <= r <= MaxValue()
  {
    CheckValidValue(m.stored)
  }

  function InitValue(m: DenominatorModel): (r: int)
    ensures IsValid(r) && MinValue() <= r <= MaxValue()
  {
    CheckValidValue(m.storedInit)
  }

  /** minValue() and maxValue(): the least and the greatest valid
      denominator. */
  function MinValue(): (r: int)
    ensures IsValid(r) && forall w :: IsValid(w) ==> r <= w
  {
    1
  }

  function MaxValue(): (r: int)
    ensures IsValid(r) && forall w :: IsValid(w) ==> w <= r
  {
    32
  }

  /** The default model is constructed with 4, a valid denominator. */
  function NewModel(): (m: DenominatorModel)
    ensures Value(m) == 4 && InitValue(m) == 4
  {
    DenominatorModel(4, 4)
  }
}
