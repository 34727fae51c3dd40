/**
 * The two-thumb range slider: each thumb's change handler clamps the new
 * value against the other thumb, and the highlighted bar's left edge and
 * width are percentages of the track.
 */
module Slider {
  import opened Common

  function Min(a: real, b: real): real {
    if a <= b then a else b
  }

  function Max(a: real, b: real): real {
    if a >= b then a else b
  }

  /** The pair the lower thumb reports for the input value `v`: at most one
      below the upper value, which stays. */
  function LowerThumb(v: real, value: (real, real)): (r: (real, real))
    ensures r.1 == value.1
    ensures r.0 <= v && r.0 <= value.1 - 1.0
    ensures r.0 == v || r.0 == value.1 - 1.0
  {
    (Min(v, value.1 - 1.0), value.1)
  }

  /** The pair the upper thumb reports: at least one above the lower value,
      which stays. */
  function UpperThumb(v: real, value: (real, real)): (r: (real, real))
    ensures r.0 == value.0
    ensures r.1 >= v && r.1 >= value.0 + 1.0
    ensures r.1 == v || r.1 == value.0 + 1.0
  {
    (value.0, Max(v, value.0 + 1.0))
  }

  /** Whatever the input and whatever the current pair, both handlers
      report a pair whose lower end is below its upper end. */
  lemma ThumbsStayApart(v: real, value: (real, real))
    ensures LowerThumb(v, value).0 < LowerThumb(v, value).1
    ensures UpperThumb(v, value).0 < UpperThumb(v, value).1
  {
  }

  /** A value at least one away from the other thumb is reported unchanged,
      and repeating the same input changes nothing further. */
  lemma ThumbsKeepAllowedValues(v: real, value: (real, real))
    ensures v <= value.1 - 1.0 ==> LowerThumb(v, value) == (v, value.1)
    ensures v >= value.0 + 1.0 ==> UpperThumb(v, value) == (value.0, v)
    ensures LowerThumb(v, LowerThumb(v, value)) == LowerThumb(v, value)
    ensures UpperThumb(v, UpperThumb(v, value)) == UpperThumb(v, value)
  {
  }

  /** `((x - min) / (max - min)) * 100`; with `max == min` the division
      gives no finite number and there is no percentage. */
  function Percent(x: real, lo: real, hi: real): (r: Option<real>)
    ensures r.Some? <==> hi != lo
  {
    if hi == lo then None else Some(((x - lo) / (hi - lo)) * 100.0)
  }

  /** The bar's left edge and width, in percent of the track. */
  function Bar(value: (real, real), lo: real, hi: real): (r: Option<(real, real)>)
    ensures r.Some? <==> hi != lo
  {
    match (Percent(value.0, lo, hi), Percent(value.1, lo, hi))
    case (Some(minPercent), Some(maxPercent)) => Some((minPercent, maxPercent - minPercent))
    case _ => None
  }

  lemma PercentMonotone(x: real, y: real, lo: real, hi: real)
    requires hi > lo && x <= y
    ensures Percent(x, lo, hi).value <= Percent(y, lo, hi).value
  {
    var d := hi - lo;
    assert (x - lo) / d <= (y - lo) / d by {
      assert (y - lo) / d - (x - lo) / d == (y - x) / d;
    }
  }

  /** On a proper track an ordered pair draws a bar of non-negative width
      that ends at the upper value; the whole track is 0 to 100. */
  lemma BarGeometry(value: (real, real), lo: real, hi: real)
    requires hi > lo && value.0 <= value.1
    ensures Bar(value, lo, hi).Some?
    ensures Bar(value, lo, hi).value.1 >= 0.0
    ensures Bar(value, lo, hi).value.0 + Bar(value, lo, hi).value.1 == Percent(value.1, lo, hi).value
    ensures Bar((lo, hi), lo, hi) == Some((0.0, 100.0))
  {
    PercentMonotone(value.0, value.1, lo, hi);
    assert (hi - lo) / (hi - lo) == 1.0;
    assert (lo - lo) / (hi - lo) == 0.0;
  }

  /** After a thumb event on a proper track the reported pair draws a bar of
      non-negative width. */
  lemma ThumbEventKeepsBar(v: real, value: (real, real), lo: real, hi: real)
    requires hi > lo
    ensures Bar(LowerThumb(v, value), lo, hi).value.1 >= 0.0
    ensures Bar(UpperThumb(v, value), lo, hi).value.1 >= 0.0
  {
    BarGeometry(LowerThumb(v, value), lo, hi);
    BarGeometry(UpperThumb(v, value), lo, hi);
  }
}
