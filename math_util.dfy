/** Affine rescaling of a value from an observed range onto a desired range. */
module MathUtil {

  /** The lower bound actually used: an empty or inverted observed range falls back to 0. */
  function EffectiveMin(observedMin: real, observedMax: real): real
  {
    if observedMin >= observedMax then 0.0 else observedMin
  }

  /**
   * `normalize`: the affine map sending the effective lower bound to `desiredMin` and
   * `observedMax` to `desiredMax`. The source divides by the width of the effective
   * observed range; for a zero width the source's float division yields NaN, a case this
   * model leaves out.
   */
  function Normalize(value: real, observedMin: real, observedMax: real,
                     desiredMin: real, desiredMax: real): (r: real)
    requires observedMax - EffectiveMin(observedMin, observedMax) != 0.0
    ensures (r - desiredMin) * (observedMax - EffectiveMin(observedMin, observedMax))
         == (value - EffectiveMin(observedMin, observedMax)) * (desiredMax - desiredMin)
  {
    var lo := EffectiveMin(observedMin, observedMax);
    var a := (desiredMax - desiredMin) / (observedMax - lo);
    var b := desiredMax - a * observedMax;
    AffineAt(value, lo, observedMax, desiredMin, desiredMax);
    a * value + b
  }

  /** The closed form used by `Normalize`, related to its two anchor points. */
  lemma AffineAt(value: real, lo: real, hi: real, desiredMin: real, desiredMax: real)
    requires hi - lo != 0.0
    ensures var a := (desiredMax - desiredMin) / (hi - lo);
            (a * value + (desiredMax - a * hi) - desiredMin) * (hi - lo)
            == (value - lo) * (desiredMax - desiredMin)
  {
    var a := (desiredMax - desiredMin) / (hi - lo);
    assert a * (hi - lo) == desiredMax - desiredMin;
    calc {
      (a * value + (desiredMax - a * hi) - desiredMin) * (hi - lo);
      (a * (value - hi) + (desiredMax - desiredMin)) * (hi - lo);
      a * (hi - lo) * (value - hi) + (desiredMax - desiredMin) * (hi - lo);
      (desiredMax - desiredMin) * (value - hi) + (desiredMax - desiredMin) * (hi - lo);
      (value - lo) * (desiredMax - desiredMin);
    }
  }

  /** The top of the observed range lands on the top of the desired range. */
  lemma NormalizeMax(observedMin: real, observedMax: real, desiredMin: real, desiredMax: real)
    requires observedMax - EffectiveMin(observedMin, observedMax) != 0.0
    ensures Normalize(observedMax, observedMin, observedMax, desiredMin, desiredMax) == desiredMax
  {
    var lo := EffectiveMin(observedMin, observedMax);
    var r := Normalize(observedMax, observedMin, observedMax, desiredMin, desiredMax);
    assert (r - desiredMin) * (observedMax - lo) == (desiredMax - desiredMin) * (observedMax - lo);
    CancelFactor(r - desiredMin, desiredMax - desiredMin, observedMax - lo);
  }

  /** With a proper observed range, its bottom lands on the bottom of the desired range. */
  lemma NormalizeMin(observedMin: real, observedMax: real, desiredMin: real, desiredMax: real)
    requires observedMin < observedMax
    ensures Normalize(observedMin, observedMin, observedMax, desiredMin, desiredMax) == desiredMin
  {
    var r := Normalize(observedMin, observedMin, observedMax, desiredMin, desiredMax);
    assert (r - desiredMin) * (observedMax - observedMin) == 0.0;
    CancelFactor(r - desiredMin, 0.0, observedMax - observedMin);
  }

  /** An inverted or empty observed range is read as [0, observedMax]. */
  lemma NormalizeInvertedRange(value: real, observedMin: real, observedMax: real,
                               desiredMin: real, desiredMax: real)
    requires observedMin >= observedMax && observedMax != 0.0
    ensures Normalize(value, observedMin, observedMax, desiredMin, desiredMax)
         == Normalize(value, 0.0, observedMax, desiredMin, desiredMax)
    ensures Normalize(0.0, observedMin, observedMax, desiredMin, desiredMax) == desiredMin
  {
    var r := Normalize(0.0, observedMin, observedMax, desiredMin, desiredMax);
    assert (r - desiredMin) * observedMax == 0.0;
    CancelFactor(r - desiredMin, 0.0, observedMax);
  }

  /** Between increasing ranges the map is strictly increasing. */
  lemma NormalizeMonotone(v: real, w: real, observedMin: real, observedMax: real,
                          desiredMin: real, desiredMax: real)
    requires observedMin < observedMax && desiredMin < desiredMax && v < w
    ensures Normalize(v, observedMin, observedMax, desiredMin, desiredMax)
          < Normalize(w, observedMin, observedMax, desiredMin, desiredMax)
  {
    var rv := Normalize(v, observedMin, observedMax, desiredMin, desiredMax);
    var rw := Normalize(w, observedMin, observedMax, desiredMin, desiredMax);
    var width := observedMax - observedMin;
    assert (rw - rv) * width == (w - v) * (desiredMax - desiredMin);
    assert (w - v) * (desiredMax - desiredMin) > 0.0;
    PositiveFactor(rw - rv, width);
  }

  lemma CancelFactor(a: real, b: real, c: real)
    requires c != 0.0 && a * c == b * c
    ensures a == b
  {
    assert (a - b) * c == 0.0;
  }

  lemma PositiveFactor(a: real, c: real)
    requires 0.0 < c && 0.0 < a * c
    ensures 0.0 < a
  {
  }
}
