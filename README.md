# CosmosCanvas LCH colour-map control points, in Dafny

CosmosCanvas builds colour maps for radio-astronomy images in the
perceptual LCH space (lightness, chroma, hue). Each builder chooses, for each
of L, C and H, a short sequence of positions along the colour bar (0 at the
data minimum, 1 at the maximum) and the value of that coordinate at each
position. It then hands these control points to a colour-space converter that
interpolates them and turns them into RGB.

This project models the builders, up to the point where the control points
are handed over:

- `control_points.dfy` (module `ControlPoints`) holds the control-point record
  (`LCHPoints`, one `Channel` of positions and values per coordinate). It also
  holds the error outcomes and the normalisation of a data value against the
  colour bar's range.
- `specindex.dfy` (module `SpecIndex`) models specindex.py. This covers
  `__stretch__`, which carries the designed positions along when the steep
  and flat features move. It also covers the spectral-index builder, the
  constant-lightness builder, the error-map builder and the older velocity
  builder.
- `velmap.dfy` (module `VelMap`) models velmap.py's `create_cmap_velocity`.
  This covers deriving the absent optional arguments, normalising `mode`,
  and assembling the seven symmetric control points.

Python floats are modelled as exact `real`s. An argument whose Python
default is `None` is an `Option<real>`. Every early return is an `Err` of
`Result`: the `None` returns, the `-1` of the constant-lightness builder,
`exit(-1)`, and the `ZeroDivisionError` that Python raises on a float
division by zero. A builder returns its `LCHPoints` record instead of calling
the converter. All builders are functions, so the same arguments always give
the same control points.

## Model

| member | source | states |
|---|---|---|
| `ControlPoints.Normalise` | velmap.py:45-47 | The normalised position of a value fails exactly on an empty range. Otherwise mapping it back onto [lo, hi] gives the value again. |
| `ControlPoints.NormaliseInUnit` | specindex.py:81-90 | On a proper range, a value lies in [min_p, max_p] iff its normalised position lies in [0, 1]. |
| `ControlPoints.NormaliseMonotone` | specindex.py:89-90 | On a proper range, normalisation keeps the order of two values in both directions. So steep_p <= flat_p iff s1 <= f1. |
| `SpecIndex.Stretch` | specindex.py:34-48 | The stretch sends the design anchors 0, s0 = 0.3125, f0 = 0.75 and 1 to 0, s1, f1 and 1. |
| `SpecIndex.StretchBranchesAgree` | specindex.py:43-48 | The left and middle formulas both give s1 at s0. The middle and right formulas both give f1 at f0. So the piecewise map is continuous. |
| `SpecIndex.StretchDefaultIsIdentity` | specindex.py:39-48 | Stretching onto the default anchors (s1 = s0, f1 = f0) leaves every position unchanged. |
| `SpecIndex.StretchLeftPiece` | specindex.py:43-44 | With 0 <= s1 <= f1 <= 1, the left piece rises and stays at or below s1. |
| `SpecIndex.StretchMiddlePiece` | specindex.py:45-46 | The middle piece rises and stays within [s1, f1]. |
| `SpecIndex.StretchRightPiece` | specindex.py:47-48 | The right piece rises and stays at or above f1. |
| `SpecIndex.StretchMonotone` | specindex.py:43-48 | With 0 <= s1 <= f1 <= 1, the stretch is non-decreasing for all p <= q. |
| `SpecIndex.StretchInUnit` | specindex.py:43-48 | With 0 <= s1 <= f1 <= 1, the stretch maps [0, 1] into [0, 1]. |
| `SpecIndex.StretchMonotoneIff` | specindex.py:39-48 | The stretch is order-preserving on [0, 1] iff 0 <= s1 <= f1 <= 1 (both directions). |
| `SpecIndex.StretchedPositions` | specindex.py:91-96 | Each of the seven positions is the stretch of the matching design position. This includes m1 = (s1+f1)/2, the stretch of the design midpoint. |
| `SpecIndex.StretchedPositionsOrdered` | specindex.py:91-96 | With ordered anchors, the seven positions start at 0, end at 1, lie in [0, 1] and are non-decreasing. |
| `SpecIndex.CreateSpecIndex` | specindex.py:79-108 | Fails with InvalidRange exactly when steep_p or flat_p lies outside [min_p, max_p]. Fails with ZeroDivision exactly when the range check passes on an empty range, and succeeds otherwise. On success: one position sequence of 7 shared by L, C and H; positions 1 and 4 map back to steep_p and flat_p; the rest are stretched design positions; the L, C, H values are the design constants. |
| `SpecIndex.SpecIndexOrdered` | specindex.py:89-101 | With min_p < max_p and min_p <= steep_p <= flat_p <= max_p, the builder succeeds. Its positions start at 0, end at 1, lie in [0, 1] and are non-decreasing. |
| `SpecIndex.SpecIndexDesignRange` | specindex.py:65-71 | On the design range -1.3 .. 0.3 with -0.8 / -0.1, the builder's positions are the design positions: its x[1] = s1 = 0.3125, x[2] = m1 = 0.53125 and x[4] = f1 = 0.75. |
| `SpecIndex.SpecIndexAcceptsReversedAnchors` | specindex.py:81-87 | steep_p > flat_p passes the check (see Findings), and the resulting positions are out of order. |
| `SpecIndex.CreateSpecIndexOrdered` | specindex.py:81-96 | With the code's inclusive range check plus steep_p <= flat_p, it fails with InvalidRange exactly unless min_p <= steep_p <= flat_p <= max_p, and with ZeroDivision exactly when those hold on an empty range; it succeeds otherwise. Whenever it succeeds it agrees with the builder, and its positions are ordered and span [0, 1]. |
| `SpecIndex.UnitGrid` | specindex.py:126-127 | There are 21 positions from 0 to 1 in steps of exactly 0.05. |
| `SpecIndex.UnitGridOrdered` | specindex.py:127 | The grid is non-decreasing and spans [0, 1]. |
| `SpecIndex.HueSweep` | specindex.py:143 | The interpolated hue is H_start at 0 and H_end at 1, and changes by (H_end - H_start)/20 at every step. |
| `SpecIndex.CreateSpecIndexConstantL` | specindex.py:123-143 | Fails with InvalidDirection exactly when H_dir is neither 'left' nor 'right'. Otherwise the 21 grid positions are shared by L, C and H, with L = L_0 and C = C_0 throughout. H runs from H_start to H_start -/+ 180, by -9 ('left') or +9 ('right') per step. |
| `SpecIndex.DefaultConstantLMap` | specindex.py:118-143 | With the defaults L_0 = 75, C_0 = 35, H_start = 70, H_dir = 'left', the map is built with L = 75 and C = 35 throughout, and H runs 70, ..., -20 at the middle, ..., -110. |
| `SpecIndex.ResolveLightnessEnds` | specindex.py:166-171 | Fails exactly when exactly one of L_min and L_max is given. Given values are kept. With neither given, both are L_ends. |
| `SpecIndex.ResolveHues` | specindex.py:173-186 | Fails exactly when an end hue is given and (H_min and H_mid) or (H_mid and H_max) are both absent. Every given hue is kept. With neither end given, both ends are H_0. An absent H_mid is the mean of the ends, and an absent end takes H_mid. |
| `SpecIndex.CreateSpecIndexError` | specindex.py:161-200 | The checks run in order: c_mid in [0, 1] (InvalidRange), then the lightness pair, then the hues. Each fails exactly in its own case, and the builder succeeds exactly when all three pass. On success the positions are [0, c_mid, 1], ordered and shared. C = [0, C_max/2, C_max], L has L_mid in the middle and the resolved ends, and H is the resolved hues. |
| `SpecIndex.DefaultErrorMap` | specindex.py:153 | With all defaults: L = [72, 50, 72], C = [0, 42.5, 85], H = [70, 70, 70]. |
| `SpecIndex.CreateVelocity` | specindex.py:218-234 | Fails exactly on an empty range. Otherwise d0 maps back to div, chroma is 0 at d0 between 50s at both ends, and L runs 90 to 10. The hue band's edges are symmetric about d0 and exactly `width` apart. |
| `SpecIndex.VelocityOrderedIff` | specindex.py:229-232 | On any non-empty range, the chroma positions are ordered iff div lies between min_p and max_p: min_p <= div <= max_p when min_p < max_p, and max_p <= div <= min_p when the range is given the other way round. The hue positions are ordered iff the band has non-negative width and lies within [0, 1]. |
| `SpecIndex.DefaultLegacyVelocityMap` | specindex.py:211-234 | With the defaults div = 0 and width = 0 on a range around zero, the map is built, the hue band collapses onto d0 (which lies strictly inside the bar), and the chroma and hue positions are ordered. |
| `ControlPoints.NormaliseReversed` | specindex.py:218-220 | Normalising against a range given the other way round measures from the other end: the position is 1 minus the position on the ordered range. |
| `VelMap.NormaliseMode` | velmap.py:66-76 | A string becomes the list of that one string and a list passes unchanged. Any other type is a fatal error. |
| `VelMap.NormaliseModeIdempotent` | velmap.py:66-69 | Normalising an already normalised mode list changes nothing. |
| `VelMap.DefaultLval2AsWritten` | velmap.py:53-55 | As written, the default Lval_2 fails when d0 = Lpoint_1 (line 54). It also fails when Lpoint_1 = 0, from the discarded expression on line 55. |
| `VelMap.DefaultLval2` | velmap.py:53-54 | The default Lval_2 fails exactly when d0 = Lpoint_1. Otherwise (p2, Lval_2) lies on the line through (Lpoint_1, Lval_1) and (d0, Lval_mid), so it equals Lval_mid when width = 0. |
| `VelMap.DefaultLval2Agrees` | velmap.py:53-55 | Wherever the code as written yields a value, the corrected default yields the same value. |
| `VelMap.DiscardedExpressionAborts` | velmap.py:55 | With Lpoint_1 = 0 and no Lval_2, the code as written aborts although the default is defined (Lval_mid = 50). |
| `VelMap.ResolveDefaults` | velmap.py:45-60 | As written: fails with ZeroDivision exactly on an empty range, or when Lval_2 is derived and either div is the value at position Lpoint_1 or Lpoint_1 = 0 (the discarded expression on line 55). On success the values satisfy `ResolvedFrom`: d0 maps back to div; explicit Lval_mid, Lval_2 and Cval_1 win; absent ones become (Lval_max+Lval_min)/2, the Lval_2 on the line through (Lpoint_1, Lval_1) and (d0, Lval_mid), and Cval_max; Lval_3 + Lval_2 = Lval_4 + Lval_1 = Lval_max + Lval_min; Hval_mid is the mean of Hval_2 and Hval_3. |
| `VelMap.ResolveDefaultsCorrected` | velmap.py:45-60 | Without line 55, it fails exactly on an empty range or when Lval_2 is derived and div is the value at position Lpoint_1. It satisfies `ResolvedFrom`, equals the as-written derivation wherever that succeeds, and succeeds where that fails only for a derived Lval_2 with Lpoint_1 = 0. |
| `VelMap.Assemble` | velmap.py:79-86 | The layout satisfies `LaidOut`: 7 positions shared by L, C and H, with x0 = 0, x6 = 1, x3 = d0, x1 = Lpoint_1, x1 + x5 = 1, x2 + x4 = 2 d0 and x4 - x2 = width. L[i] + L[6-i] = Lval_max + Lval_min for the three outer pairs. C is a palindrome with 0 at d0. H[3] is the mean of H[2] and H[4] and lies between them. |
| `VelMap.CreateVelocity` | velmap.py:45-86 | As written. A division error comes before a bad mode, and it fails exactly when the derivation fails or the mode has another type. On success its points satisfy `LaidOut` for the resolved values and the modes are the normalised `mode`. |
| `VelMap.CreateVelocityCorrected` | velmap.py:45-86 | With the corrected derivation it fails exactly when that fails or the mode has another type, and its points satisfy `LaidOut`. It builds the same map wherever the as-written builder does, and builds one besides only for a derived Lval_2 with Lpoint_1 = 0. |
| `VelMap.ZeroShoulderAborts` | velmap.py:53-55 | The defaults on -1 .. 1 with Lpoint_1 = 0: the as-written builder ends in ZeroDivision, while the corrected builder draws the map. |
| `VelMap.VelocityLightnessReflected` | velmap.py:51-80 | With the default Lval_mid, L[i] + L[6-i] = Lval_max + Lval_min for all seven points. |
| `VelMap.VelocityOrderedIff` | velmap.py:79 | The positions are non-decreasing iff 0 <= Lpoint_1 <= d0 - width/2, width >= 0 and d0 + width/2 <= 1 - Lpoint_1. |
| `VelMap.DefaultVelocityMap` | velmap.py:31-33 | With all defaults on -1 .. 1: the map is built, d0 = 0.5, the positions are ordered and span [0, 1], and the modes are ['clip']. |

## Left out

- The colour-space converter `maps.make_cmap_segmented` is left out: LCH to sRGB, gamut clip or crop, colour-map registration and PNG output. So are `convert` and `gamut`. These are library calls whose code is not part of this model. The builders return the control points they would pass to it. The `name`, `modes`, `targets`, `png_dir`, `mpl_reg` and `out` arguments, and the returned name and RGB table, are not modelled. The exception is velmap.py's `mode`, whose normalisation is modelled.
- Console messages, warnings (such as the warning for a mode list longer than one) and the `pathlib` import probe are left out. Only the success or error outcome is modelled.
- IEEE floating point is left out. Arithmetic is exact over `real`, and `np.arange(0, 1.05, 0.05)` is modelled as the 21 positions k/20.
- Python's dynamic typing is left out. Numeric arguments are reals and `H_dir` is a string. Only `mode` keeps its three Python cases (string, list, other).
- The plotting and test helpers of specindex.py (lines 242-334) and all of galfits.py are left out. They are matplotlib and aplpy drawing.
- Image cutout and trimming (sky position to clamped pixel bounds, slicing a cube and its coordinate system) is not part of this model. None of the modelled files implements it.
- No builder checks that its positions are non-decreasing before handing them over. So there is no InvalidControlPoints error. The conditions under which positions are ordered are proved as lemmas instead (`SpecIndexOrdered`, `SpecIndex.VelocityOrderedIff`, `VelMap.VelocityOrderedIff`).
- `create_cmap_specindex` does not reject steep_p > flat_p, although its message asks for min_p < steep_p < flat_p < max_p. The model follows the code (`CreateSpecIndex`) and adds the ordered variant (`CreateSpecIndexOrdered`), which keeps the code's inclusive bounds and adds only steep_p <= flat_p.

## Findings

| source | as written | input that shows it | evidently intended | confidence | as-written member | corrected member |
|---|---|---|---|---|---|---|
| specindex.py:81-90 | Only checks that steep_p and flat_p each lie in [min_p, max_p]. | min_p = -1.3, max_p = 0.3, steep_p = -0.1, flat_p = -0.8: s1 = 0.75 and f1 = 0.3125, so the positions run 0, 0.75, 0.53125, ... and go backwards. | Reject steep_p > flat_p, as the message on line 82 asks (the message also asks for strict bounds; the corrected member keeps the code's inclusive bounds). | medium, not executed | `SpecIndex.SpecIndexAcceptsReversedAnchors` | `SpecIndex.CreateSpecIndexOrdered` |
| velmap.py:53-55 | Line 55 is an expression statement whose value is discarded, but its division by Lpoint_1 still runs. | Lpoint_1 = 0, Lval_2 absent, d0 = 0.5, width = 0: ZeroDivisionError, although line 54 gives Lval_2 = Lval_mid = 50. | Lval_2 comes from line 54 alone. | medium, not executed | `VelMap.ZeroShoulderAborts` | `VelMap.CreateVelocityCorrected` |
