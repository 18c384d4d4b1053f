/** The radial weight/height picker of MetricsForm.tsx: the ranges of the two
    metrics, the rule that turns a pointer angle into a value, and the form's
    active metric and drag flag.

    The pointer's angle arrives already in degrees: the screen geometry and
    the arctangent that produce it are not modelled, and angles are exact reals. */
module Metrics {
  import opened Types
  import Hydration

  /** The two metrics the picker can edit. */
  datatype Metric = Weight | Height

  /** Lowest selectable value: 30 kg, 130 cm. */
  function Min(m: Metric): (lo: int)
    ensures lo == (if m == Weight then 30 else 130)
  {
    match m
    case Weight => 30
    case Height => 130
  }

  /** Highest selectable value: 150 kg, 220 cm. */
  function Max(m: Metric): (hi: int)
    ensures hi == (if m == Weight then 150 else 220)
    ensures hi > Min(m)
  {
    match m
    case Weight => 150
    case Height => 220
  }

  function Abs(x: real): real {
    if x < 0.0 then -x else x
  }

  /** The pointer angle measured clockwise from 12 o'clock: the raw angle is the
      arctangent's (-180..180] plus 90, and a negative one wraps once. */
  function NormalizeAngle(raw: real): (angle: real)
    ensures angle == raw || angle == raw + 360.0
    ensures -360.0 <= raw < 360.0 ==> 0.0 <= angle < 360.0
    ensures 0.0 <= raw ==> angle == raw
  {
    if raw < 0.0 then raw + 360.0 else raw
  }

  /** The angle at which the handle of value v sits: its share of the range, times 360. */
  function CurrentAngle(v: int, m: Metric): real {
    ((v - Min(m)) as real) / ((Max(m) - Min(m)) as real) * 360.0
  }

  function Clamp(x: int, lo: int, hi: int): (r: int)
    requires lo <= hi
    ensures lo <= r <= hi
    ensures lo <= x <= hi ==> r == x
  {
    if x < lo then lo else if x > hi then hi else x
  }

  /** The picked value, or None when the pointer is more than half a turn away
      from the handle: such a jump across 12 o'clock is ignored. */
  function PickValue(angle: real, v: int, m: Metric): (r: Option<int>)
    ensures r.None? <==> Abs(angle - CurrentAngle(v, m)) > 180.0
    ensures r.Some? ==> Min(m) <= r.value <= Max(m)
  {
    if Abs(angle - CurrentAngle(v, m)) > 180.0 then None
    else
      var range := Max(m) - Min(m);
      Some(Clamp(Hydration.JsRound(angle / 360.0 * range as real) + Min(m), Min(m), Max(m)))
  }

  /** On the circle itself, 0..360 degrees, the clamp never acts: the value is
      the rounded share of the range plus the minimum. */
  lemma ClampIdleOnCircle(angle: real, v: int, m: Metric)
    requires 0.0 <= angle <= 360.0 && PickValue(angle, v, m).Some?
    ensures PickValue(angle, v, m).value ==
      Hydration.JsRound(angle / 360.0 * (Max(m) - Min(m)) as real) + Min(m)
  {
    var range := (Max(m) - Min(m)) as real;
    var x := angle / 360.0 * range;
    assert 0.0 <= x <= range;
    var n := Hydration.JsRound(x);
    assert 0 <= n <= Max(m) - Min(m);
  }

  /** Pressing exactly on the handle keeps the value, for every value in range. */
  lemma PickAtHandle(v: int, m: Metric)
    requires Min(m) <= v <= Max(m)
    ensures PickValue(CurrentAngle(v, m), v, m) == Some(v)
  {
    var range := (Max(m) - Min(m)) as real;
    var a := CurrentAngle(v, m);
    assert a / 360.0 * range == (v - Min(m)) as real;
    assert Hydration.JsRound((v - Min(m)) as real) == v - Min(m);
  }

  /** Turning further clockwise never picks a smaller value. */
  lemma PickMonotone(a: real, b: real, v: int, m: Metric)
    requires a <= b && PickValue(a, v, m).Some? && PickValue(b, v, m).Some?
    ensures PickValue(a, v, m).value <= PickValue(b, v, m).value
  {
    var range := (Max(m) - Min(m)) as real;
    assert a / 360.0 * range <= b / 360.0 * range;
  }

  /** The form: which metric the picker edits, whether a drag is under way, and
      the two values the picker writes back into the profile. */
  class MetricsForm {
    var activeMetric: Metric
    var isDragging: bool
    var weight: int
    var height: int

    function Value(): int
      reads this
    {
      if activeMetric == Weight then weight else height
    }

    /** The form opens on the weight metric with no drag under way. */
    constructor (weight0: int, height0: int)
      ensures activeMetric == Weight && !isDragging
      ensures weight == weight0 && height == height0
    {
      activeMetric := Weight;
      isDragging := false;
      weight := weight0;
      height := height0;
    }

    /** The tabs: switching metric changes which value is edited, nothing else. */
    method SelectMetric(m: Metric)
      modifies this
      ensures activeMetric == m
      ensures isDragging == old(isDragging) && weight == old(weight) && height == old(height)
    {
      activeMetric := m;
    }

    /** One pointer position: the active metric takes the picked value, the
        other metric is untouched, and an ignored jump changes nothing. */
    method UpdateValue(raw: real)
      modifies this
      ensures activeMetric == old(activeMetric) && isDragging == old(isDragging)
      ensures var r := PickValue(NormalizeAngle(raw), old(Value()), activeMetric);
        && (activeMetric == Weight && r.Some? ==> weight == r.value)
        && (activeMetric != Weight || r.None? ==> weight == old(weight))
        && (activeMetric == Height && r.Some? ==> height == r.value)
        && (activeMetric != Height || r.None? ==> height == old(height))
    {
      var angle := NormalizeAngle(raw);
      var r := PickValue(angle, Value(), activeMetric);
      if r.Some? {
        if activeMetric == Weight {
          weight := r.value;
        } else {
          height := r.value;
        }
      }
    }

    /** Pressing the dial starts a drag and sets the value at once. */
    method StartDrag(raw: real)
      modifies this
      ensures isDragging && activeMetric == old(activeMetric)
      ensures var r := PickValue(NormalizeAngle(raw), old(Value()), activeMetric);
        Value() == (if r.Some? then r.value else old(Value()))
      ensures activeMetric == Weight ==> height == old(height)
      ensures activeMetric == Height ==> weight == old(weight)
    {
      isDragging := true;
      UpdateValue(raw);
    }

    /** A pointer move edits the value only while a drag is under way. */
    method Move(raw: real)
      modifies this
      ensures isDragging == old(isDragging) && activeMetric == old(activeMetric)
      ensures !old(isDragging) ==> weight == old(weight) && height == old(height)
      ensures old(isDragging) ==>
        var r := PickValue(NormalizeAngle(raw), old(Value()), activeMetric);
        Value() == (if r.Some? then r.value else old(Value()))
      ensures activeMetric == Weight ==> height == old(height)
      ensures activeMetric == Height ==> weight == old(weight)
    {
      if isDragging {
        UpdateValue(raw);
      }
    }

    /** Releasing the pointer ends the drag. */
    method EndDrag()
      modifies this
      ensures !isDragging
      ensures activeMetric == old(activeMetric) && weight == old(weight) && height == old(height)
    {
      isDragging := false;
    }
  }
}
