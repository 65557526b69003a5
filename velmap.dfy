/**
  The velocity colour map of velmap.py.

  Seven control points, shared by L, C and H, placed symmetrically about the
  normalised zero-velocity position d0: the two ends, a shoulder at Lpoint_1
  and its mirror 1 - Lpoint_1, the edges d0 -/+ width/2 of a neutral band,
  and d0 itself. Lightness falls from Lval_max to Lval_min, point-reflected
  about the centre; chroma is a palindrome that reaches grey (0) at d0; hue
  runs from Hval_L to Hval_R through the given breakpoints. Every optional
  argument the caller leaves out is derived once from the others; one the
  caller gives is used as given.
*/
module VelMap {
  import opened ControlPoints

  // ------------------------------------------------------------------- mode

  /** The `mode` argument as Python sees it: a string, a list, or anything else. */
  datatype ModeArg = ModeString(name: string) | ModeList(names: seq<string>) | OtherType

  /**
    The list of gamut modes handed to the converter: a string becomes a list
    of one, a list passes unchanged (a list of several only draws a warning),
    any other type ends the program.
  */
  function NormaliseMode(mode: ModeArg): (r: Result<seq<string>>)
    ensures r.Err? <==> mode.OtherType?
    ensures r.Err? ==> r.error == InvalidModeType
    ensures mode.ModeString? ==> r.value == [mode.name]
    ensures mode.ModeList? ==> r.value == mode.names
  {
    match mode
    case ModeString(name) => Ok([name])
    case ModeList(names) => Ok(names)
    case OtherType => Err(InvalidModeType)
  }

  /** A normalised mode is already normal: passing it again as a list changes nothing. */
  lemma NormaliseModeIdempotent(mode: ModeArg)
    requires NormaliseMode(mode).Ok?
    ensures NormaliseMode(ModeList(NormaliseMode(mode).value)) == NormaliseMode(mode)
  {
  }

  // ------------------------------------------------------------- parameters

  /** The keyword arguments of `create_cmap_velocity` that shape the map; `None` where Python's default is None. */
  datatype VelocityParams = VelocityParams(
    minP: real,
    maxP: real,
    div: real,
    width: real,
    LvalMax: real,
    Lpoint1: real,
    Lval1: real,
    Lval2: Option<real>,
    LvalMid: Option<real>,
    LvalMin: real,
    CvalMax: real,
    Cval1: Option<real>,
    Cval2: real,
    HvalL: real,
    HvalR: real,
    Hval1: real,
    Hval2: real,
    Hval3: real,
    Hval4: real,
    mode: ModeArg)

  /** The defaults of `create_cmap_velocity` for a data range [minP, maxP]. */
  function VelocityDefaults(minP: real, maxP: real): VelocityParams {
    VelocityParams(minP, maxP, 0.0, 0.001, 90.0, 0.33, 61.0, None, None, 10.0,
                   50.0, None, 0.4, 210.0, 30.0, 210.0, 209.0, 31.0, 30.0, ModeString("clip"))
  }

  // ------------------------------------------------------- derived defaults

  /**
    The lightness Lval_2 at the band's lower edge p2 = d0 - width/2 when the
    caller gives none, as written: the value at p2 of the line through
    (Lpoint_1, Lval_1) and (d0, Lval_mid), followed by an expression whose
    value is thrown away but whose division by Lpoint_1 still runs.
  */
  function DefaultLval2AsWritten(d0: real, width: real, Lpoint1: real, Lval1: real, LvalMid: real): (r: Result<real>)
    ensures r.Err? <==> d0 == Lpoint1 || Lpoint1 == 0.0
    ensures r.Err? ==> r.error == ZeroDivision
  {
    var p2 := d0 - width / 2.0;
    if d0 == Lpoint1 then Err(ZeroDivision)
    else
      var lval2 := ((p2 - Lpoint1) * LvalMid + (d0 - p2) * Lval1) / (d0 - Lpoint1);
      if Lpoint1 == 0.0 then Err(ZeroDivision) else Ok(lval2)
  }

  /**
    The default Lval_2 without the discarded expression: the point (p2, Lval_2)
    lies on the line through (Lpoint_1, Lval_1) and (d0, Lval_mid), so with
    no band it is Lval_mid itself. It needs d0 != Lpoint_1.
  */
  function DefaultLval2(d0: real, width: real, Lpoint1: real, Lval1: real, LvalMid: real): (r: Result<real>)
    ensures r.Err? <==> d0 == Lpoint1
    ensures r.Err? ==> r.error == ZeroDivision
    ensures r.Ok? ==> (r.value - Lval1) * (d0 - Lpoint1) == (LvalMid - Lval1) * (d0 - width / 2.0 - Lpoint1)
    ensures r.Ok? && width == 0.0 ==> r.value == LvalMid
  {
    var p2 := d0 - width / 2.0;
    if d0 == Lpoint1 then Err(ZeroDivision)
    else Ok(((p2 - Lpoint1) * LvalMid + (d0 - p2) * Lval1) / (d0 - Lpoint1))
  }

  /** Wherever the code as written yields a value, the corrected default yields the same one. */
  lemma DefaultLval2Agrees(d0: real, width: real, Lpoint1: real, Lval1: real, LvalMid: real)
    requires DefaultLval2AsWritten(d0, width, Lpoint1, Lval1, LvalMid).Ok?
    ensures DefaultLval2(d0, width, Lpoint1, Lval1, LvalMid) == DefaultLval2AsWritten(d0, width, Lpoint1, Lval1, LvalMid)
  {
  }

  /**
    With Lpoint_1 = 0 and no Lval_2, the discarded expression aborts the
    builder although the default it computes is well defined (here Lval_mid).
  */
  lemma DiscardedExpressionAborts()
    ensures DefaultLval2AsWritten(0.5, 0.0, 0.0, 61.0, 50.0).Err?
    ensures DefaultLval2(0.5, 0.0, 0.0, 61.0, 50.0) == Ok(50.0)
  {
  }

  /** The values the map is built from once every absent argument has its default. */
  datatype Resolved = Resolved(
    d0: real,
    LvalMid: real,
    Lval2: real,
    Lval3: real,
    Lval4: real,
    Cval1: real,
    HvalMid: real)

  /**
    What the derivation of lines 45-60 promises about the values it resolves:
    d0 is the normalised centre; each absent value is derived from the others
    and a value the caller gives is used as given; Lval_3 and Lval_4 are Lval_2
    and Lval_1 reflected through the mean of Lval_max and Lval_min; Hval_mid is
    the mean of Hval_2 and Hval_3.
  */
  predicate ResolvedFrom(p: VelocityParams, v: Resolved) {
    && p.minP + v.d0 * (p.maxP - p.minP) == p.div
    && v.LvalMid == (if p.LvalMid.Some? then p.LvalMid.value else (p.LvalMax + p.LvalMin) / 2.0)
    && (p.Lval2.Some? ==> v.Lval2 == p.Lval2.value)
    && (p.Lval2.None? ==> Ok(v.Lval2) == DefaultLval2(v.d0, p.width, p.Lpoint1, p.Lval1, v.LvalMid))
    && v.Cval1 == (if p.Cval1.Some? then p.Cval1.value else p.CvalMax)
    && v.Lval3 + v.Lval2 == p.LvalMax + p.LvalMin
    && v.Lval4 + p.Lval1 == p.LvalMax + p.LvalMin
    && 2.0 * v.HvalMid == p.Hval2 + p.Hval3
  }

  /** The record of resolved values once d0, Lval_mid and Lval_2 are known. */
  function Complete(p: VelocityParams, d0: real, lvalMid: real, lval2: real): (v: Resolved)
    ensures v.Lval3 + lval2 == p.LvalMax + p.LvalMin && v.Lval4 + p.Lval1 == p.LvalMax + p.LvalMin
    ensures 2.0 * v.HvalMid == p.Hval2 + p.Hval3
  {
    Resolved(
      d0,
      lvalMid,
      lval2,
      p.LvalMin + (p.LvalMax - lval2),
      p.LvalMin + (p.LvalMax - p.Lval1),
      if p.Cval1.Some? then p.Cval1.value else p.CvalMax,
      (p.Hval2 + p.Hval3) / 2.0)
  }

  /**
    The derivation of lines 45-60 as written. Three divisions can fail: an
    empty data range, and (only when Lval_2 is derived) a centre that
    coincides with Lpoint_1 or a shoulder at Lpoint_1 = 0, whose division sits
    in the expression whose value is thrown away.
  */
  function ResolveDefaults(p: VelocityParams): (r: Result<Resolved>)
    ensures r.Err? <==>
      || p.minP == p.maxP
      || (p.Lval2.None? && (p.minP + p.Lpoint1 * (p.maxP - p.minP) == p.div || p.Lpoint1 == 0.0))
    ensures r.Err? ==> r.error == ZeroDivision
    ensures r.Ok? ==> ResolvedFrom(p, r.value)
  {
    var d0 :- Normalise(p.div, p.minP, p.maxP);
    var lvalMid := if p.LvalMid.Some? then p.LvalMid.value else (p.LvalMax + p.LvalMin) / 2.0;
    var lval2 :- if p.Lval2.Some? then Ok(p.Lval2.value) else DefaultLval2AsWritten(d0, p.width, p.Lpoint1, p.Lval1, lvalMid);
    assert p.Lval2.None? ==> Ok(lval2) == DefaultLval2(d0, p.width, p.Lpoint1, p.Lval1, lvalMid);
    Ok(Complete(p, d0, lvalMid, lval2))
  }

  /**
    The derivation without the discarded expression: it fails only on an empty
    data range or a centre at Lpoint_1, agrees with the code as written
    wherever that succeeds, and succeeds besides only for a derived Lval_2
    with the shoulder at 0.
  */
  function ResolveDefaultsCorrected(p: VelocityParams): (r: Result<Resolved>)
    ensures r.Err? <==> p.minP == p.maxP || (p.Lval2.None? && p.minP + p.Lpoint1 * (p.maxP - p.minP) == p.div)
    ensures r.Err? ==> r.error == ZeroDivision
    ensures r.Ok? ==> ResolvedFrom(p, r.value)
    ensures ResolveDefaults(p).Ok? ==> r == ResolveDefaults(p)
    ensures ResolveDefaults(p).Err? && r.Ok? ==> p.Lval2.None? && p.Lpoint1 == 0.0
  {
    var d0 :- Normalise(p.div, p.minP, p.maxP);
    var lvalMid := if p.LvalMid.Some? then p.LvalMid.value else (p.LvalMax + p.LvalMin) / 2.0;
    var lval2 :- if p.Lval2.Some? then Ok(p.Lval2.value) else DefaultLval2(d0, p.width, p.Lpoint1, p.Lval1, lvalMid);
    Ok(Complete(p, d0, lvalMid, lval2))
  }

  // ---------------------------------------------------------------- builder

  /** The result handed to the converter: the control points and the list of modes. */
  datatype VelocityMap = VelocityMap(points: LCHPoints, modes: seq<string>)

  /**
    The layout of lines 79-86 for resolved values `v`: seven positions shared
    by L, C and H, symmetric about d0 and about the middle of the bar;
    lightness from Lval_max to Lval_min with the outer pairs point-reflected
    about the centre; chroma a palindrome that is grey at d0; hue through the
    given breakpoints with the mean of Hval_2 and Hval_3 at d0.
  */
  predicate LaidOut(p: VelocityParams, v: Resolved, pts: LCHPoints) {
    && SharedPositions(pts)
    && |pts.L.x| == 7
    && (var x := pts.L.x;
        && x[0] == 0.0 && x[6] == 1.0 && x[3] == v.d0
        && x[1] == p.Lpoint1 && x[1] + x[5] == 1.0
        && x[2] + x[4] == 2.0 * x[3] && x[4] - x[2] == p.width)
    && (var l := pts.L.y;
        && l[0] == p.LvalMax && l[1] == p.Lval1 && l[6] == p.LvalMin
        && l[3] == v.LvalMid && l[2] == v.Lval2
        && forall i :: 0 <= i < 3 ==> l[i] + l[6 - i] == p.LvalMax + p.LvalMin)
    && (var c := pts.C.y;
        && c[0] == p.CvalMax && c[1] == v.Cval1 && c[2] == p.Cval2 && c[3] == 0.0
        && forall i :: 0 <= i < 7 ==> c[i] == c[6 - i])
    && (var h := pts.H.y;
        && h[0] == p.HvalL && h[1] == p.Hval1 && h[2] == p.Hval2
        && h[4] == p.Hval3 && h[5] == p.Hval4 && h[6] == p.HvalR
        && 2.0 * h[3] == h[2] + h[4]
        && (h[2] <= h[3] <= h[4] || h[4] <= h[3] <= h[2]))
  }

  /** The seven control points built from resolved values that keep their promises. */
  function Assemble(p: VelocityParams, v: Resolved): (pts: LCHPoints)
    requires ResolvedFrom(p, v)
    ensures LaidOut(p, v, pts)
  {
    var x := [0.0, p.Lpoint1, v.d0 - p.width / 2.0, v.d0, v.d0 + p.width / 2.0, 1.0 - p.Lpoint1, 1.0];
    LCHPoints(
      Channel(x, [p.LvalMax, p.Lval1, v.Lval2, v.LvalMid, v.Lval3, v.Lval4, p.LvalMin]),
      Channel(x, [p.CvalMax, v.Cval1, p.Cval2, 0.0, p.Cval2, v.Cval1, p.CvalMax]),
      Channel(x, [p.HvalL, p.Hval1, p.Hval2, v.HvalMid, p.Hval3, p.Hval4, p.HvalR]))
  }

  /**
    `create_cmap_velocity`: the control points of the velocity map. The
    divisions of the derivation fail before the mode is looked at.
  */
  function CreateVelocity(p: VelocityParams): (r: Result<VelocityMap>)
    ensures r.Err? <==> ResolveDefaults(p).Err? || p.mode.OtherType?
    ensures ResolveDefaults(p).Err? ==> r == Err(ZeroDivision)
    ensures ResolveDefaults(p).Ok? && p.mode.OtherType? ==> r == Err(InvalidModeType)
    ensures r.Ok? ==> LaidOut(p, ResolveDefaults(p).value, r.value.points) && r.value.modes == NormaliseMode(p.mode).value
  {
    var res :- ResolveDefaults(p);
    var modes :- NormaliseMode(p.mode);
    Ok(VelocityMap(Assemble(p, res), modes))
  }

  /**
    The builder with the corrected derivation: the same map wherever the code
    as written builds one, and a map besides where only the discarded
    division by Lpoint_1 = 0 stopped it.
  */
  function CreateVelocityCorrected(p: VelocityParams): (r: Result<VelocityMap>)
    ensures r.Err? <==> ResolveDefaultsCorrected(p).Err? || p.mode.OtherType?
    ensures r.Ok? ==> LaidOut(p, ResolveDefaultsCorrected(p).value, r.value.points) && r.value.modes == NormaliseMode(p.mode).value
    ensures CreateVelocity(p).Ok? ==> r == CreateVelocity(p)
    ensures CreateVelocity(p).Err? && r.Ok? ==> p.Lval2.None? && p.Lpoint1 == 0.0
  {
    var res :- ResolveDefaultsCorrected(p);
    var modes :- NormaliseMode(p.mode);
    Ok(VelocityMap(Assemble(p, res), modes))
  }

  /**
    On the default map over -1 .. 1 with the shoulder moved to 0, the code as
    written stops with a division by zero while the corrected builder draws
    the map.
  */
  lemma ZeroShoulderAborts()
    ensures CreateVelocity(VelocityDefaults(-1.0, 1.0).(Lpoint1 := 0.0)) == Err(ZeroDivision)
    ensures CreateVelocityCorrected(VelocityDefaults(-1.0, 1.0).(Lpoint1 := 0.0)).Ok?
  {
    assert Normalise(0.0, -1.0, 1.0).value == 0.5;
  }

  /** With the default Lval_mid the whole lightness sequence is point-reflected about the centre. */
  lemma VelocityLightnessReflected(p: VelocityParams)
    requires CreateVelocity(p).Ok? && p.LvalMid.None?
    ensures var l := CreateVelocity(p).value.points.L.y;
      forall i :: 0 <= i < 7 ==> l[i] + l[6 - i] == p.LvalMax + p.LvalMin
  {
    var l := CreateVelocity(p).value.points.L.y;
    assert l[3] + l[3] == p.LvalMax + p.LvalMin;
    forall i | 3 < i < 7
      ensures l[i] + l[6 - i] == p.LvalMax + p.LvalMin
    {
      assert l[6 - i] + l[6 - (6 - i)] == p.LvalMax + p.LvalMin;
    }
  }

  /**
    The builder does not check its positions. They are in order exactly when
    the shoulder comes no later than the band, the band has non-negative
    width, and the band ends no later than the mirrored shoulder.
  */
  lemma VelocityOrderedIff(p: VelocityParams)
    requires CreateVelocity(p).Ok?
    ensures var x := CreateVelocity(p).value.points.L.x; var d0 := x[3];
      Sorted(x) <==> 0.0 <= p.Lpoint1 <= d0 - p.width / 2.0 && 0.0 <= p.width && d0 + p.width / 2.0 <= 1.0 - p.Lpoint1
  {
    StepwiseSortedIsSorted(CreateVelocity(p).value.points.L.x);
  }

  /**
    With every default, on the range -1 .. 1 the map is built, its positions
    are in order from 0 to 1, grey sits at the middle of the bar, and the
    mode is the single list ['clip'].
  */
  lemma DefaultVelocityMap()
    ensures CreateVelocity(VelocityDefaults(-1.0, 1.0)).Ok?
    ensures CreateVelocity(VelocityDefaults(-1.0, 1.0)).value.points.L.x[3] == 0.5
    ensures Sorted(CreateVelocity(VelocityDefaults(-1.0, 1.0)).value.points.L.x)
    ensures SpansUnit(CreateVelocity(VelocityDefaults(-1.0, 1.0)).value.points.L.x)
    ensures CreateVelocity(VelocityDefaults(-1.0, 1.0)).value.modes == ["clip"]
  {
    var p := VelocityDefaults(-1.0, 1.0);
    assert Normalise(0.0, -1.0, 1.0).value == 0.5;
    VelocityOrderedIff(p);
  }
}
