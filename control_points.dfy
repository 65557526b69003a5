/**
  Control points of the LCH colour maps.

  Every colour-map builder hands a segmented map to the colour-space converter:
  for each of the three coordinates L (lightness), C (chroma) and H (hue) a
  sequence of positions along the colour bar (0 at the minimum, 1 at the
  maximum) and the value of that coordinate at each position. The converter
  interpolates linearly between them. This module holds that record, the
  error outcomes the builders can end in, and the normalisation of a data
  value against the colour bar's [min, max] range that every builder uses.
*/
module ControlPoints {

  /** An optional keyword argument: `None` when the caller left it out. */
  datatype Option<+T> = None | Some(value: T)

  /** The ways a builder ends without producing control points. */
  datatype Error =
    | InvalidRange        // a value outside its allowed range; the builder returns None
    | ZeroDivision        // a float division by zero; Python raises ZeroDivisionError
    | InvalidDirection    // a hue direction other than 'left' or 'right'; the builder returns -1
    | UnpairedLightness   // exactly one of L_min and L_max supplied; the builder returns None
    | UnpairedHue         // too few of H_min, H_mid, H_max supplied; the builder returns None
    | InvalidModeType     // a mode that is neither a string nor a list; the program exits

  datatype Result<+T> = Ok(value: T) | Err(error: Error) {
    predicate IsFailure() {
      Err?
    }

    function PropagateFailure<U>(): Result<U>
      requires Err?
    {
      Err(error)
    }

    function Extract(): T
      requires Ok?
    {
      value
    }
  }

  /** The control points of one coordinate: positions `x` and values `y`. */
  datatype Channel = Channel(x: seq<real>, y: seq<real>)

  /** The `LCH_x` / `LCH_y` dictionaries, keyed by 'L', 'C' and 'H'. */
  datatype LCHPoints = LCHPoints(L: Channel, C: Channel, H: Channel)

  /** One position sequence shared by L, C and H, with one value per position in each. */
  predicate SharedPositions(p: LCHPoints) {
    && p.C.x == p.L.x
    && p.H.x == p.L.x
    && |p.L.y| == |p.L.x|
    && |p.C.y| == |p.L.x|
    && |p.H.y| == |p.L.x|
  }

  /** Non-decreasing: no position comes after a larger one. */
  predicate Sorted(s: seq<real>) {
    forall i, j :: 0 <= i <= j < |s| ==> s[i] <= s[j]
  }

  /** Non-decreasing, checked one neighbouring pair at a time. */
  predicate StepwiseSorted(s: seq<real>) {
    forall i :: 0 < i < |s| ==> s[i - 1] <= s[i]
  }

  /** Positions that start at 0, end at 1 and all lie in [0, 1]. */
  predicate SpansUnit(s: seq<real>) {
    && |s| >= 2
    && s[0] == 0.0
    && s[|s| - 1] == 1.0
    && forall i :: 0 <= i < |s| ==> 0.0 <= s[i] <= 1.0
  }

  /** Checking neighbours is enough: a sequence is non-decreasing iff each step is. */
  lemma {:induction false} StepwiseSortedIsSorted(s: seq<real>)
    ensures StepwiseSorted(s) <==> Sorted(s)
  {
    if |s| > 1 && StepwiseSorted(s) {
      var t := s[..|s| - 1];
      assert StepwiseSorted(t) by {
        forall i | 0 < i < |t|
          ensures t[i - 1] <= t[i]
        {
          assert t[i - 1] == s[i - 1] && t[i] == s[i];
        }
      }
      StepwiseSortedIsSorted(t);
      forall i, j | 0 <= i <= j < |s|
        ensures s[i] <= s[j]
      {
        if j < |s| - 1 {
          assert t[i] == s[i] && t[j] == s[j];
        } else if i < j {
          assert t[i] == s[i] && t[|t| - 1] == s[|s| - 2];
        }
      }
    }
  }

  /**
    The normalised position of `v` on a colour bar that runs from `lo` to `hi`:
    `(v - lo) / (hi - lo)`, a float division that fails when the range is empty.
  */
  function Normalise(v: real, lo: real, hi: real): (r: Result<real>)
    ensures r.Err? <==> hi == lo
    ensures r.Err? ==> r.error == ZeroDivision
    ensures r.Ok? ==> lo + r.value * (hi - lo) == v
  {
    if hi == lo then Err(ZeroDivision) else Ok((v - lo) / (hi - lo))
  }

  /** The product of two non-negative reals is non-negative. */
  lemma ProductNonNegative(a: real, b: real)
    requires 0.0 <= a && 0.0 <= b
    ensures 0.0 <= a * b
  {
  }

  /** The product of two positive reals is positive. */
  lemma ProductPositive(a: real, b: real)
    requires 0.0 < a && 0.0 < b
    ensures 0.0 < a * b
  {
  }

  /** On a proper range, a value lies on the colour bar iff its position lies in [0, 1]. */
  lemma NormaliseInUnit(v: real, lo: real, hi: real)
    requires lo < hi
    ensures 0.0 <= Normalise(v, lo, hi).value <= 1.0 <==> lo <= v <= hi
  {
    var t := Normalise(v, lo, hi).value;
    var w := hi - lo;
    assert v - lo == t * w;
    assert hi - v == (1.0 - t) * w;
    if t < 0.0 {
      ProductPositive(-t, w);
      assert lo - v == (-t) * w;
    } else if t > 1.0 {
      ProductPositive(t - 1.0, w);
      assert v - hi == (t - 1.0) * w;
    } else {
      ProductNonNegative(t, w);
      ProductNonNegative(1.0 - t, w);
    }
  }

  /** On a proper range, normalisation keeps the order of the values. */
  lemma NormaliseMonotone(u: real, v: real, lo: real, hi: real)
    requires lo < hi
    ensures Normalise(u, lo, hi).value <= Normalise(v, lo, hi).value <==> u <= v
  {
    var a := Normalise(u, lo, hi).value;
    var b := Normalise(v, lo, hi).value;
    var w := hi - lo;
    assert u == lo + a * w && v == lo + b * w;
    assert v - u == b * w - a * w;
    assert b * w - a * w == (b - a) * w;
    if a > b {
      ProductPositive(a - b, w);
      assert (a - b) * w == -((b - a) * w);
      assert u > v;
    } else {
      ProductNonNegative(b - a, w);
      assert u <= v;
    }
  }

  /** Normalising against a range given the other way round measures from the other end. */
  lemma NormaliseReversed(v: real, lo: real, hi: real)
    requires lo < hi
    ensures Normalise(v, hi, lo).value == 1.0 - Normalise(v, lo, hi).value
  {
    var t := Normalise(v, lo, hi).value;
    var u := Normalise(v, hi, lo).value;
    var w := hi - lo;
    var d := 1.0 - u - t;
    assert v == lo + t * w && v == hi + u * (lo - hi);
    assert d * w == w - u * w - t * w;
    assert d * w == 0.0;
    if d > 0.0 {
      ProductPositive(d, w);
    } else if d < 0.0 {
      ProductPositive(-d, w);
    }
  }
}
