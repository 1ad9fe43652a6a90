/** The value-stepping rules of the denominator spin box: dragging, the mouse
    wheel and the typed-value dialog all double, halve or replace the value and
    snap the result through checkValidValue. */
module DenominatorSpinBox {
  import opened Wrappers
  import opened Numeric
  import opened Denominator

  /** A value the underlying IntModel can hold: it clamps to [1, 32]. */
  predicate InModelRange(v: int) {
    MinValue() <= v <= MaxValue()
  }

  /** One step up: double, then snap. */
  function StepUp(v: int): (r: int)
    requires InModelRange(v)
    ensures IsValid(r) && InModelRange(r)
    ensures r >= v || !IsValid(v)
  {
    CheckValidValue(v * 2)
  }

  /** One step down: halve with C's truncating division, then snap. */
  function StepDown(v: int): (r: int)
    requires InModelRange(v)
    ensures IsValid(r) && InModelRange(r)
    ensures r <= v
  {
    CheckValidValueCases(CDiv(v, 2));
    CheckValidValueMonotone(CDiv(v, 2), v);
    CheckValidValueCases(v);
    CheckValidValueIsFloor(v);
    CheckValidValue(CDiv(v, 2))
  }

  /** From a valid denominator, stepping up doubles it until 32, where it stays. */
  lemma StepUpDoubles(v: int)
    requires IsValid(v)
    ensures v < 32 ==> StepUp(v) == 2 * v
    ensures v == 32 ==> StepUp(v) == 32
  {
    CheckValidValueCases(2 * v);
  }

  /** From a valid denominator, stepping down halves it until 1, where it stays
      because 1 / 2 = 0 snaps back to 1. */
  lemma StepDownHalves(v: int)
    requires IsValid(v)
    ensures v > 1 ==> StepDown(v) * 2 == v
    ensures v == 1 ==> StepDown(v) == 1
  {
    CheckValidValueCases(CDiv(v, 2));
  }

  /** Up and down are inverse on the valid denominators where neither saturates. */
  lemma StepRoundTrips(v: int)
    requires IsValid(v)
    ensures v < 32 ==> StepDown(StepUp(v)) == v
    ensures v > 1 ==> StepUp(StepDown(v)) == v
  {
    StepUpDoubles(v);
    StepDownHalves(v);
    if v < 32 {
      StepDownHalves(StepUp(v));
    }
    if v > 1 {
      StepUpDoubles(StepDown(v));
    }
  }

  /** wheelEvent: a positive wheel delta steps up, any other delta steps down. */
  function Wheel(v: int, delta: int): (r: int)
    requires InModelRange(v)
    ensures IsValid(r)
    ensures delta > 0 ==> r == StepUp(v)
    ensures delta <= 0 ==> r == StepDown(v)
  {
    if delta > 0 then StepUp(v) else StepDown(v)
  }

  /** The vertical drag distance mouseMoveEvent acts on: with Shift held it is
      divided by 4 (truncating) and clamped to [-4, 4]. */
  function DragDelta(dy: int, shift: bool): (d: int)
    ensures shift ==> -4 <= d <= 4
    ensures !shift ==> d == dy
  {
    if shift then
      var q := CDiv(dy, 4);
      if q < -4 then -4 else if 4 < q then 4 else q
    else dy
  }

  /** mouseMoveEvent while dragging: the value changes only when the (possibly
      Shift-scaled) distance exceeds 1 in magnitude; downward motion (positive
      delta) doubles and upward halves. `None` means the model is left alone. */
  function Drag(v: int, dy: int, shift: bool): (r: Option<int>)
    requires InModelRange(v)
    ensures var d := DragDelta(dy, shift);
      && (r.Some? <==> (d > 1 || d < -1))
      && (d > 1 ==> r == Some(StepUp(v)))
      && (d < -1 ==> r == Some(StepDown(v)))
    ensures r.Some? ==> IsValid(r.value)
  {
    var d := DragDelta(dy, shift);
    if d > 1 || d < -1 then Some(if d > 0 then StepUp(v) else StepDown(v)) else None
  }

  /** With Shift held, a drag changes the value exactly when it covers at
      least 8 pixels either way: shorter drags divide down to a magnitude of
      at most 1. */
  lemma ShiftDragNeedsEightPixels(v: int, dy: int)
    requires InModelRange(v)
    ensures Drag(v, dy, true).Some? <==> (dy >= 8 || dy <= -8)
  {
  }

  /** enterDenominatorValue: a typed value is stored, snapped, only when the
      dialog was confirmed; otherwise the model is unchanged. */
  function EnterValue(m: DenominatorModel, typed: int, confirmed: bool): (m': DenominatorModel)
    ensures !confirmed ==> m' == m
    ensures confirmed ==> m'.stored == CheckValidValue(typed) && m'.storedInit == m.storedInit
    ensures confirmed ==> Value(m') == CheckValidValue(typed) && IsValid(m'.stored)
  {
    if confirmed then m.(stored := CheckValidValue(typed)) else m
  }
}
