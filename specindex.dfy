/**
  The spectral-index colour maps of specindex.py.

  The designed spectral-index map puts its two divergence features, the
  "steep" (orange) and the "flat" (dark cyan) colours, at fixed normalised
  positions S0 and F0 of the colour bar. A caller who chooses another data
  range or other steep and flat values moves those features to new positions
  s1 and f1; `Stretch` carries every other designed position along so that the
  map keeps its shape. The builders check or derive their parameters and
  return the control points that would be handed to the colour-space
  converter.
*/
module SpecIndex {
  import opened ControlPoints

  /** Default position of the steep feature: (-0.8 - -1.3) / (0.3 - -1.3). */
  const S0: real := 0.3125
  /** Default position of the flat feature: (-0.1 - -1.3) / (0.3 - -1.3). */
  const F0: real := 0.75

  // ---------------------------------------------------------------- stretch

  /** The left piece: [0, S0] onto [0, s1]. */
  function StretchLeft(p: real, s1: real, f1: real): real {
    p * s1 / S0
  }

  /** The middle piece: [S0, F0] onto [s1, f1]. */
  function StretchMiddle(p: real, s1: real, f1: real): real {
    ((p - S0) * f1 + (F0 - p) * s1) / (F0 - S0)
  }

  /** The right piece: [F0, 1] onto [f1, 1]. */
  function StretchRight(p: real, s1: real, f1: real): real {
    ((p - F0) + (1.0 - p) * f1) / (1.0 - F0)
  }

  /**
    The position, once the steep and flat features sit at s1 and f1, of the
    point at position p of the default design. The four anchors of the
    design go exactly where they should.
  */
  function Stretch(p: real, s1: real, f1: real): (r: real)
    ensures p == 0.0 ==> r == 0.0
    ensures p == S0 ==> r == s1
    ensures p == F0 ==> r == f1
    ensures p == 1.0 ==> r == 1.0
  {
    if p <= S0 then StretchLeft(p, s1, f1)
    else if p <= F0 then StretchMiddle(p, s1, f1)
    else StretchRight(p, s1, f1)
  }

  /** The three pieces meet at the breakpoints, so the stretch is continuous. */
  lemma StretchBranchesAgree(s1: real, f1: real)
    ensures StretchLeft(S0, s1, f1) == s1 && StretchMiddle(S0, s1, f1) == s1
    ensures StretchMiddle(F0, s1, f1) == f1 && StretchRight(F0, s1, f1) == f1
  {
  }

  /** Stretching onto the default anchors moves nothing. */
  lemma StretchDefaultIsIdentity(p: real)
    ensures Stretch(p, S0, F0) == p
  {
  }

  /** Target anchors that keep the steep feature before the flat one, inside the bar. */
  predicate AnchorsOrdered(s1: real, f1: real) {
    0.0 <= s1 <= f1 <= 1.0
  }

  /** Left of the steep anchor the stretch stays at or below s1, and rises with p. */
  lemma StretchLeftPiece(p: real, q: real, s1: real, f1: real)
    requires AnchorsOrdered(s1, f1)
    requires p <= q <= S0
    ensures Stretch(p, s1, f1) <= Stretch(q, s1, f1) <= s1
  {
    ProductNonNegative(q - p, s1);
    ProductNonNegative(S0 - q, s1);
  }

  /** Between the anchors the stretch stays within [s1, f1], and rises with p. */
  lemma StretchMiddlePiece(p: real, q: real, s1: real, f1: real)
    requires AnchorsOrdered(s1, f1)
    requires S0 < p <= q <= F0
    ensures s1 <= Stretch(p, s1, f1) <= Stretch(q, s1, f1) <= f1
  {
    ProductNonNegative(p - S0, f1 - s1);
    ProductNonNegative(q - p, f1 - s1);
    ProductNonNegative(F0 - q, f1 - s1);
  }

  /** Right of the flat anchor the stretch stays at or above f1, and rises with p. */
  lemma StretchRightPiece(p: real, q: real, s1: real, f1: real)
    requires AnchorsOrdered(s1, f1)
    requires F0 < p <= q
    ensures f1 <= Stretch(p, s1, f1) <= Stretch(q, s1, f1)
  {
    ProductNonNegative(p - F0, 1.0 - f1);
    ProductNonNegative(q - p, 1.0 - f1);
  }

  /** With ordered anchors the stretch never reverses the order of two positions. */
  lemma StretchMonotone(p: real, q: real, s1: real, f1: real)
    requires AnchorsOrdered(s1, f1)
    requires p <= q
    ensures Stretch(p, s1, f1) <= Stretch(q, s1, f1)
  {
    // Each piece rises and ends where the next begins.
    if q <= S0 {
      StretchLeftPiece(p, q, s1, f1);
    } else if q <= F0 {
      if p <= S0 {
        StretchLeftPiece(p, p, s1, f1);
        StretchMiddlePiece(q, q, s1, f1);
      } else {
        StretchMiddlePiece(p, q, s1, f1);
      }
    } else {
      StretchRightPiece(q, q, s1, f1);
      if p <= S0 {
        StretchLeftPiece(p, p, s1, f1);
      } else if p <= F0 {
        StretchMiddlePiece(p, p, s1, f1);
      } else {
        StretchRightPiece(p, q, s1, f1);
      }
    }
  }

  /** With ordered anchors the stretch maps the colour bar [0, 1] into itself. */
  lemma StretchInUnit(p: real, s1: real, f1: real)
    requires AnchorsOrdered(s1, f1)
    requires 0.0 <= p <= 1.0
    ensures 0.0 <= Stretch(p, s1, f1) <= 1.0
  {
    StretchMonotone(0.0, p, s1, f1);
    StretchMonotone(p, 1.0, s1, f1);
  }

  /** The stretch keeps the order of positions on the colour bar. */
  ghost predicate MonotoneOnUnit(s1: real, f1: real) {
    forall p, q :: 0.0 <= p <= q <= 1.0 ==> Stretch(p, s1, f1) <= Stretch(q, s1, f1)
  }

  /** Ordered anchors are exactly what keeps the stretch order-preserving on [0, 1]. */
  lemma StretchMonotoneIff(s1: real, f1: real)
    ensures MonotoneOnUnit(s1, f1) <==> AnchorsOrdered(s1, f1)
  {
    if AnchorsOrdered(s1, f1) {
      forall p, q | 0.0 <= p <= q <= 1.0
        ensures Stretch(p, s1, f1) <= Stretch(q, s1, f1)
      {
        StretchMonotone(p, q, s1, f1);
      }
    }
    if MonotoneOnUnit(s1, f1) {
      assert Stretch(0.0, s1, f1) <= Stretch(S0, s1, f1);
      assert Stretch(S0, s1, f1) <= Stretch(F0, s1, f1);
      assert Stretch(F0, s1, f1) <= Stretch(1.0, s1, f1);
    }
  }

  // ------------------------------------------------- spectral-index builder

  /**
    The positions of the default design: start, steep, midway between steep
    and flat, two shape points at 0.6 and 0.9, flat, end.
  */
  const DesignPositions: seq<real> := [0.0, S0, (S0 + F0) / 2.0, 0.6, F0, 0.9, 1.0]

  /** The designed lightness, chroma and hue at each position (yellow to plum). */
  const DesignL: seq<real> := [85.0, 54.0, 39.0, 34.3, 24.0, 15.5, 15.0]
  const DesignC: seq<real> := [60.0, 74.4, 0.0, 7.9, 25.1, 46.1, 54.4]
  const DesignH: seq<real> := [86.0, 51.7, 72.0, 200.0, 276.2, 302.5, 320.0]

  /**
    The seven positions `LCH_x_vals` once the features sit at s1 and f1: each
    one is the stretch of the corresponding design position (the midpoint
    m1 = (s1 + f1) / 2 included, which is the stretch of the design midpoint).
  */
  function StretchedPositions(s1: real, f1: real): (x: seq<real>)
    ensures |x| == |DesignPositions|
    ensures forall i :: 0 <= i < |x| ==> x[i] == Stretch(DesignPositions[i], s1, f1)
  {
    [0.0, s1, 0.5 * (s1 + f1), Stretch(0.6, s1, f1), f1, Stretch(0.9, s1, f1), 1.0]
  }

  /** With ordered anchors the stretched positions run from 0 to 1 without going back. */
  lemma StretchedPositionsOrdered(s1: real, f1: real)
    requires AnchorsOrdered(s1, f1)
    ensures Sorted(StretchedPositions(s1, f1))
    ensures SpansUnit(StretchedPositions(s1, f1))
  {
    var x := StretchedPositions(s1, f1);
    forall i | 0 < i < |x|
      ensures x[i - 1] <= x[i]
    {
      StretchMonotone(DesignPositions[i - 1], DesignPositions[i], s1, f1);
    }
    StepwiseSortedIsSorted(x);
    forall i | 0 <= i < |x|
      ensures 0.0 <= x[i] <= 1.0
    {
      StretchInUnit(DesignPositions[i], s1, f1);
    }
  }

  /** The values given are outside [min_p, max_p] (the only check the builder makes). */
  predicate OutsideRange(minP: real, maxP: real, steepP: real, flatP: real) {
    steepP < minP || flatP < minP || steepP > maxP || flatP > maxP
  }

  /**
    `create_cmap_specindex`: the control points of the spectral-index map for
    data in [minP, maxP] with the steep and flat features at the values steepP
    and flatP. It fails with InvalidRange exactly when steepP or flatP lies
    outside [minP, maxP]; it does NOT check steepP <= flatP. A range of zero
    width that passes the check divides by zero.
  */
  function CreateSpecIndex(minP: real, maxP: real, steepP: real, flatP: real): (r: Result<LCHPoints>)
    ensures r == Err(InvalidRange) <==> OutsideRange(minP, maxP, steepP, flatP)
    ensures r == Err(ZeroDivision) <==> !OutsideRange(minP, maxP, steepP, flatP) && minP == maxP
    ensures r.Ok? <==> !OutsideRange(minP, maxP, steepP, flatP) && minP != maxP
    ensures r.Ok? ==> minP < maxP && SharedPositions(r.value)
    ensures r.Ok? ==> var x := r.value.L.x;
      && |x| == 7
      && minP + x[1] * (maxP - minP) == steepP
      && minP + x[4] * (maxP - minP) == flatP
      && x == StretchedPositions(x[1], x[4])
    ensures r.Ok? ==> r.value.L.y == DesignL && r.value.C.y == DesignC && r.value.H.y == DesignH
  {
    if OutsideRange(minP, maxP, steepP, flatP) then Err(InvalidRange)
    else
    if minP == maxP then Err(ZeroDivision)
    else
      var s1 := Normalise(steepP, minP, maxP).value;
      var f1 := Normalise(flatP, minP, maxP).value;
      var x := StretchedPositions(s1, f1);
      Ok(LCHPoints(Channel(x, DesignL), Channel(x, DesignC), Channel(x, DesignH)))
  }

  /**
    With steepP <= flatP inside a proper range the builder succeeds and its
    positions start at 0, end at 1, stay in [0, 1] and never go back.
  */
  lemma SpecIndexOrdered(minP: real, maxP: real, steepP: real, flatP: real)
    requires minP < maxP && minP <= steepP <= flatP <= maxP
    ensures CreateSpecIndex(minP, maxP, steepP, flatP).Ok?
    ensures Sorted(CreateSpecIndex(minP, maxP, steepP, flatP).value.L.x)
    ensures SpansUnit(CreateSpecIndex(minP, maxP, steepP, flatP).value.L.x)
  {
    var s1 := Normalise(steepP, minP, maxP).value;
    var f1 := Normalise(flatP, minP, maxP).value;
    NormaliseInUnit(steepP, minP, maxP);
    NormaliseInUnit(flatP, minP, maxP);
    NormaliseMonotone(steepP, flatP, minP, maxP);
    StretchedPositionsOrdered(s1, f1);
  }

  /**
    On the design range -1.3 .. 0.3 with steep -0.8 and flat -0.1 the map is
    the default design itself: s1 = 0.3125, m1 = 0.53125, f1 = 0.75.
  */
  lemma SpecIndexDesignRange()
    ensures CreateSpecIndex(-1.3, 0.3, -0.8, -0.1).Ok?
    ensures CreateSpecIndex(-1.3, 0.3, -0.8, -0.1).value.L.x == DesignPositions
    ensures var x := CreateSpecIndex(-1.3, 0.3, -0.8, -0.1).value.L.x;
      x[1] == 0.3125 && x[2] == 0.53125 && x[4] == 0.75
  {
    var x := CreateSpecIndex(-1.3, 0.3, -0.8, -0.1).value.L.x;
    assert Normalise(-0.8, -1.3, 0.3).value == S0;
    assert Normalise(-0.1, -1.3, 0.3).value == F0;
    forall i | 0 <= i < |x|
      ensures x[i] == DesignPositions[i]
    {
      StretchDefaultIsIdentity(DesignPositions[i]);
    }
  }

  /**
    The builder accepts a steep value above the flat value, although its
    message asks for min_p < steep_p < flat_p < max_p; the positions it then
    produces go backwards (0.75 before 0.53125).
  */
  lemma SpecIndexAcceptsReversedAnchors()
    ensures CreateSpecIndex(-1.3, 0.3, -0.1, -0.8).Ok?
    ensures !Sorted(CreateSpecIndex(-1.3, 0.3, -0.1, -0.8).value.L.x)
  {
    var x := CreateSpecIndex(-1.3, 0.3, -0.1, -0.8).value.L.x;
    assert Normalise(-0.1, -1.3, 0.3).value == 0.75;
    assert Normalise(-0.8, -1.3, 0.3).value == 0.3125;
    assert x[1] == 0.75 && x[2] == 0.53125;
  }

  /**
    The builder with its own inclusive range check plus steepP <= flatP:
    steep and flat inside [minP, maxP] AND in order. Whenever it succeeds it agrees with the builder
    and its positions are a proper colour-bar sequence.
  */
  function CreateSpecIndexOrdered(minP: real, maxP: real, steepP: real, flatP: real): (r: Result<LCHPoints>)
    ensures r == Err(InvalidRange) <==> !(minP <= steepP <= flatP <= maxP)
    ensures r == Err(ZeroDivision) <==> minP <= steepP <= flatP <= maxP && minP == maxP
    ensures r.Ok? <==> minP <= steepP <= flatP <= maxP && minP != maxP
    ensures r.Ok? ==> r == CreateSpecIndex(minP, maxP, steepP, flatP)
    ensures r.Ok? ==> SharedPositions(r.value) && Sorted(r.value.L.x) && SpansUnit(r.value.L.x)
  {
    if steepP > flatP then Err(InvalidRange)
    else
      var r := CreateSpecIndex(minP, maxP, steepP, flatP);
      if r.Ok? then SpecIndexOrdered(minP, maxP, steepP, flatP); r else r
  }

  // ------------------------------------------- constant-lightness builder

  /** The 21 positions 0, 0.05, ..., 1 of `np.arange(0, 1.05, 0.05)`, in exact arithmetic. */
  function UnitGrid(): (x: seq<real>)
    ensures |x| == 21 && x[0] == 0.0 && x[20] == 1.0
    ensures forall k :: 0 < k < |x| ==> x[k] - x[k - 1] == 0.05
  {
    seq(21, k requires 0 <= k < 21 => k as real / 20.0)
  }

  /** The grid is a proper colour-bar sequence. */
  lemma UnitGridOrdered()
    ensures Sorted(UnitGrid()) && SpansUnit(UnitGrid())
  {
    var x := UnitGrid();
    StepwiseSortedIsSorted(x);
    forall i | 0 <= i < |x|
      ensures 0.0 <= x[i] <= 1.0
    {
      assert x[i] == i as real / 20.0;
    }
  }

  /** The value at t of the line from a (at 0) to b (at 1). */
  function Interpolate(a: real, b: real, t: real): real {
    a * (1.0 - t) + b * t
  }

  /** The line from a to b starts at a, ends at b, and moving from u to v changes it by (b - a)(v - u). */
  lemma InterpolationStep(a: real, b: real, u: real, v: real)
    ensures Interpolate(a, b, 0.0) == a && Interpolate(a, b, 1.0) == b
    ensures Interpolate(a, b, v) - Interpolate(a, b, u) == (b - a) * (v - u)
  {
  }

  /**
    The hue at each grid position t, interpolated between hStart at 0 and hEnd
    at 1: it starts and ends there and moves by the same amount at each step.
  */
  function HueSweep(hStart: real, hEnd: real): (h: seq<real>)
    ensures |h| == |UnitGrid()|
    ensures h[0] == hStart && h[20] == hEnd
    ensures forall k :: 0 < k < |h| ==> h[k] - h[k - 1] == (hEnd - hStart) / 20.0
  {
    var x := UnitGrid();
    var h := seq(|x|, k requires 0 <= k < |x| => Interpolate(hStart, hEnd, x[k]));
    InterpolationStep(hStart, hEnd, 0.0, 1.0);
    assert forall k :: 0 < k < |h| ==> h[k] - h[k - 1] == (hEnd - hStart) / 20.0 by {
      forall k | 0 < k < |h|
        ensures h[k] - h[k - 1] == (hEnd - hStart) / 20.0
      {
        InterpolationStep(hStart, hEnd, x[k - 1], x[k]);
        assert x[k] - x[k - 1] == 0.05;
      }
    }
    h
  }

  /**
    `create_cmap_specindex_constantL`: lightness L0 and chroma C0 throughout,
    hue swept linearly by half a turn from HStart, downwards for 'left' and
    upwards for 'right'; any other direction is an error.
  */
  function CreateSpecIndexConstantL(L0: real, C0: real, HStart: real, HDir: string): (r: Result<LCHPoints>)
    ensures r.Err? <==> HDir != "left" && HDir != "right"
    ensures r.Err? ==> r.error == InvalidDirection
    ensures r.Ok? ==> SharedPositions(r.value) && r.value.L.x == UnitGrid()
    ensures r.Ok? ==> forall k :: 0 <= k < |r.value.L.y| ==> r.value.L.y[k] == L0 && r.value.C.y[k] == C0
    ensures r.Ok? ==> var h := r.value.H.y;
      && h[0] == HStart
      && h[20] == (if HDir == "left" then HStart - 180.0 else HStart + 180.0)
      && forall k :: 0 < k < |h| ==> h[k] - h[k - 1] == (if HDir == "left" then -9.0 else 9.0)
  {
    var x := UnitGrid();
    var hEnd :-
      if HDir == "left" then Ok(HStart - 180.0)
      else if HDir == "right" then Ok(HStart + 180.0)
      else Err(InvalidDirection);
    var h := HueSweep(HStart, hEnd);
    Ok(LCHPoints(Channel(x, seq(|x|, _ => L0)), Channel(x, seq(|x|, _ => C0)), Channel(x, h)))
  }

  // ------------------------------------------------------ error-map builder

  /** The keyword arguments of `create_cmap_specindex_error` that shape the map. */
  datatype ErrorMapParams = ErrorMapParams(
    cMid: real,
    LEnds: real,
    LMid: real,
    LMin: Option<real>,
    LMax: Option<real>,
    CMax: real,
    H0: real,
    HMin: Option<real>,
    HMid: Option<real>,
    HMax: Option<real>)

  /** The defaults of `create_cmap_specindex_error`. */
  function DefaultErrorMapParams(): ErrorMapParams {
    ErrorMapParams(0.5, 72.0, 50.0, None, None, 85.0, 70.0, None, None, None)
  }

  /**
    The lightness at the two ends: both given, or neither (both are then
    L_ends); one without the other is an error.
  */
  function ResolveLightnessEnds(LEnds: real, LMin: Option<real>, LMax: Option<real>): (r: Result<(real, real)>)
    ensures r.Err? <==> LMin.None? != LMax.None?
    ensures r.Err? ==> r.error == UnpairedLightness
    ensures r.Ok? && LMin.Some? ==> r.value == (LMin.value, LMax.value)
    ensures r.Ok? && LMin.None? ==> r.value == (LEnds, LEnds)
  {
    if LMin.None? && LMax.None? then Ok((LEnds, LEnds))
    else if LMin.None? || LMax.None? then Err(UnpairedLightness)
    else Ok((LMin.value, LMax.value))
  }

  /** Too few hues given to fill in the others. */
  predicate HuesUnpaired(HMin: Option<real>, HMid: Option<real>, HMax: Option<real>) {
    && !(HMin.None? && HMax.None?)
    && ((HMin.None? && HMid.None?) || (HMid.None? && HMax.None?))
  }

  /**
    The hues (start, middle, end). A hue the caller gives is kept. With
    neither end given both ends are H_0; an absent middle is the mean of the
    ends; an absent end takes the middle hue.
  */
  function ResolveHues(H0: real, HMin: Option<real>, HMid: Option<real>, HMax: Option<real>): (r: Result<(real, real, real)>)
    ensures r.Err? <==> HuesUnpaired(HMin, HMid, HMax)
    ensures r.Err? ==> r.error == UnpairedHue
    ensures r.Ok? ==>
      && (HMin.Some? ==> r.value.0 == HMin.value)
      && (HMid.Some? ==> r.value.1 == HMid.value)
      && (HMax.Some? ==> r.value.2 == HMax.value)
    ensures r.Ok? && HMin.None? && HMax.None? ==> r.value.0 == H0 && r.value.2 == H0
    ensures r.Ok? && HMid.None? ==> r.value.1 == (r.value.0 + r.value.2) / 2.0
    ensures r.Ok? && HMin.None? && HMax.Some? ==> r.value.0 == r.value.1
    ensures r.Ok? && HMax.None? && HMin.Some? ==> r.value.2 == r.value.1
  {
    if HuesUnpaired(HMin, HMid, HMax) then Err(UnpairedHue)
    else
      var hMin := if HMin.None? && HMax.None? then H0 else if HMin.Some? then HMin.value else HMid.value;
      var hMax := if HMin.None? && HMax.None? then H0 else if HMax.Some? then HMax.value else HMid.value;
      var hMid := if HMid.Some? then HMid.value else 0.5 * (hMin + hMax);
      Ok((hMin, hMid, hMax))
  }

  /**
    `create_cmap_specindex_error`: three control points at 0, c_mid and 1;
    chroma rises from grey (0) through half of C_max to C_max. The checks run
    in the source's order: c_mid in [0, 1], then the lightness pair, then the hues.
  */
  function CreateSpecIndexError(p: ErrorMapParams): (r: Result<LCHPoints>)
    ensures r == Err(InvalidRange) <==> p.cMid < 0.0 || 1.0 < p.cMid
    ensures r == Err(UnpairedLightness) <==> 0.0 <= p.cMid <= 1.0 && p.LMin.None? != p.LMax.None?
    ensures r == Err(UnpairedHue) <==>
      && 0.0 <= p.cMid <= 1.0
      && p.LMin.None? == p.LMax.None?
      && HuesUnpaired(p.HMin, p.HMid, p.HMax)
    ensures r.Ok? <==> 0.0 <= p.cMid <= 1.0 && p.LMin.None? == p.LMax.None? && !HuesUnpaired(p.HMin, p.HMid, p.HMax)
    ensures r.Ok? ==> var q := r.value;
      && SharedPositions(q)
      && q.L.x == [0.0, p.cMid, 1.0]
      && Sorted(q.L.x) && SpansUnit(q.L.x)
      && q.C.y == [0.0, p.CMax / 2.0, p.CMax]
      && q.L.y[1] == p.LMid
      && (q.L.y[0], q.L.y[2]) == ResolveLightnessEnds(p.LEnds, p.LMin, p.LMax).value
      && (q.H.y[0], q.H.y[1], q.H.y[2]) == ResolveHues(p.H0, p.HMin, p.HMid, p.HMax).value
  {
    if p.cMid < 0.0 || 1.0 < p.cMid then Err(InvalidRange)
    else
      var ends :- ResolveLightnessEnds(p.LEnds, p.LMin, p.LMax);
      var hues :- ResolveHues(p.H0, p.HMin, p.HMid, p.HMax);
      var x := [0.0, p.cMid, 1.0];
      Ok(LCHPoints(
        Channel(x, [ends.0, p.LMid, ends.1]),
        Channel(x, [0.0, p.CMax / 2.0, p.CMax]),
        Channel(x, [hues.0, hues.1, hues.2])))
  }

  /** With every default the error map runs grey to orange at constant hue 70, lightness 72-50-72. */
  lemma DefaultErrorMap()
    ensures CreateSpecIndexError(DefaultErrorMapParams()).Ok?
    ensures CreateSpecIndexError(DefaultErrorMapParams()).value.L.y == [72.0, 50.0, 72.0]
    ensures CreateSpecIndexError(DefaultErrorMapParams()).value.C.y == [0.0, 42.5, 85.0]
    ensures CreateSpecIndexError(DefaultErrorMapParams()).value.H.y == [70.0, 70.0, 70.0]
  {
  }

  /**
    With the defaults of `create_cmap_specindex_constantL` (L_0 = 75, C_0 = 35,
    H_start = 70, H_dir = 'left') the hue turns down from 70 to -110.
  */
  lemma DefaultConstantLMap()
    ensures CreateSpecIndexConstantL(75.0, 35.0, 70.0, "left").Ok?
    ensures var q := CreateSpecIndexConstantL(75.0, 35.0, 70.0, "left").value;
      && (forall k :: 0 <= k < |q.L.y| ==> q.L.y[k] == 75.0 && q.C.y[k] == 35.0)
      && q.H.y[0] == 70.0 && q.H.y[10] == -20.0 && q.H.y[20] == -110.0
  {
    var h := CreateSpecIndexConstantL(75.0, 35.0, 70.0, "left").value.H.y;
    assert h == HueSweep(70.0, -110.0);
    InterpolationStep(70.0, -110.0, 0.0, 0.5);
    assert h[10] == Interpolate(70.0, -110.0, UnitGrid()[10]);
    assert UnitGrid()[10] == 0.5;
  }

  // --------------------------------------------------- old velocity builder

  /**
    The older `create_cmap_velocity` of specindex.py: lightness falls from 90
    to 10 across the bar, chroma falls from 50 to 0 at the zero-velocity
    position d0 and rises back to 50, and the hue turns from blue (210, 209)
    to red (31, 30) across a band of the given width centred on d0.
  */
  function CreateVelocity(minP: real, maxP: real, div: real, width: real): (r: Result<LCHPoints>)
    ensures r.Err? <==> minP == maxP
    ensures r.Err? ==> r.error == ZeroDivision
    ensures r.Ok? ==> r.value.L == Channel([0.0, 1.0], [90.0, 10.0])
    ensures r.Ok? ==> var c := r.value.C;
      && |c.x| == 3 && c.x[0] == 0.0 && c.x[2] == 1.0
      && minP + c.x[1] * (maxP - minP) == div
      && c.y == [50.0, 0.0, 50.0]
    ensures r.Ok? ==> var h := r.value.H; var d0 := r.value.C.x[1];
      && |h.x| == 4 && h.x[0] == 0.0 && h.x[3] == 1.0
      && h.x[1] + h.x[2] == 2.0 * d0
      && h.x[2] - h.x[1] == width
      && h.y == [210.0, 209.0, 31.0, 30.0]
  {
    var d0 :- Normalise(div, minP, maxP);
    Ok(LCHPoints(
      Channel([0.0, 1.0], [90.0, 10.0]),
      Channel([0.0, d0, 1.0], [50.0, 0.0, 50.0]),
      Channel([0.0, d0 - width / 2.0, d0 + width / 2.0, 1.0], [210.0, 209.0, 31.0, 30.0])))
  }

  /**
    The old velocity builder does not check its positions: chroma's are in
    order iff div lies between minP and maxP (on a range given either way
    round), hue's iff the band has non-negative width and fits inside the bar.
  */
  lemma VelocityOrderedIff(minP: real, maxP: real, div: real, width: real)
    requires minP != maxP
    ensures var r := CreateVelocity(minP, maxP, div, width).value;
      && (minP < maxP ==> (Sorted(r.C.x) <==> minP <= div <= maxP))
      && (maxP < minP ==> (Sorted(r.C.x) <==> maxP <= div <= minP))
      && (Sorted(r.H.x) <==> 0.0 <= width && 0.0 <= r.C.x[1] - width / 2.0 && r.C.x[1] + width / 2.0 <= 1.0)
  {
    var r := CreateVelocity(minP, maxP, div, width).value;
    if minP < maxP {
      NormaliseInUnit(div, minP, maxP);
    } else {
      NormaliseReversed(div, maxP, minP);
      NormaliseInUnit(div, maxP, minP);
    }
    StepwiseSortedIsSorted(r.C.x);
    StepwiseSortedIsSorted(r.H.x);
  }

  /**
    With the defaults of the old builder (div = 0, width = 0) on a range around
    zero, the hue band collapses onto d0 and every position is in order.
  */
  lemma DefaultLegacyVelocityMap(minP: real, maxP: real)
    requires minP < 0.0 < maxP
    ensures CreateVelocity(minP, maxP, 0.0, 0.0).Ok?
    ensures var r := CreateVelocity(minP, maxP, 0.0, 0.0).value;
      && r.H.x[1] == r.H.x[2] == r.C.x[1]
      && 0.0 < r.C.x[1] < 1.0
      && Sorted(r.C.x) && Sorted(r.H.x)
  {
    var r := CreateVelocity(minP, maxP, 0.0, 0.0).value;
    NormaliseInUnit(0.0, minP, maxP);
    assert r.C.x[1] != 0.0 && r.C.x[1] != 1.0;
    VelocityOrderedIff(minP, maxP, 0.0, 0.0);
  }
}
