/**
 * `RoundedDrawable`: a bitmap drawable with one shared corner radius and a
 * per-corner "rounded" flag, an oval mode, a border, a scale type and two
 * shader tile modes. The state is given as the value `DrawableState`, the
 * setters and `draw` as functions on it, and the class `RoundedDrawable`
 * holds the same state in fields (the flags in an array written in place)
 * with methods proved against those functions.
 */
module RoundedDrawables {
  import opened Graphics

  /** `RoundedDrawable.Corner`; its ordinal indexes the rounded-corner flags. */
  datatype Corner = TopLeft | TopRight | BottomRight | BottomLeft

  function Ordinal(c: Corner): (i: nat)
    ensures i < 4
  {
    match c
    case TopLeft => 0
    case TopRight => 1
    case BottomRight => 2
    case BottomLeft => 3
  }

  /** The two `IllegalArgumentException`s the radius setters throw. */
  datatype RadiusError = MultipleNonzeroRadii | InvalidRadius(radius: Float)

  /**
   * The inputs `updateShaderMatrix` last computed the shader matrix and the
   * border and drawable rectangles from; the computation itself is not
   * modelled, and the rectangle it yields is an input of `Drawn`.
   */
  datatype ShaderLayout = ShaderLayout(scaleType: ScaleType, borderWidth: Float, bounds: Rect)

  /** The rounded-corner flags, one per corner in ordinal order. */
  type Flags = b: seq<bool> | |b| == 4 witness [true, true, true, true]

  /** The fields of a `RoundedDrawable` that its setters and `draw` use. */
  datatype DrawableState = DrawableState(
    bitmap: Bitmap,
    tileModeX: TileMode,
    tileModeY: TileMode,
    rebuildShader: bool,
    cornerRadius: Float,
    cornersRounded: Flags,
    oval: bool,
    borderWidth: Float,
    borderColors: ColorStateList,
    scaleType: ScaleType,
    bounds: Rect,
    layout: Option<ShaderLayout>)

  /** A freshly constructed drawable: radius 0, every corner flagged, FIT_CENTER, CLAMP. */
  function Initial(bitmap: Bitmap): DrawableState
  {
    DrawableState(bitmap, Clamp, Clamp, true, ZERO, [true, true, true, true], false, ZERO,
                  ValueOf(BLACK), FitCenter, Rect(0, 0, 0, 0), None)
  }

  /** What `only(index, booleans)` decides: the flag at `index` is the only one set. */
  predicate OnlySet(index: int, b: seq<bool>) {
    forall j :: 0 <= j < |b| ==> b[j] == (j == index)
  }

  /** What `any(booleans)` decides. */
  predicate AnySet(b: seq<bool>) {
    exists j :: 0 <= j < |b| && b[j]
  }

  /** What `all(booleans)` decides as written: that NO flag is set. */
  predicate NoneSet(b: seq<bool>) {
    forall j :: 0 <= j < |b| ==> !b[j]
  }

  /** What the name `all` promises: that every flag is set. */
  predicate EverySet(b: seq<bool>) {
    forall j :: 0 <= j < |b| ==> b[j]
  }

  /** `getCornerRadius(corner)`. */
  function CornerRadiusOf(s: DrawableState, c: Corner): Float
  {
    if s.cornersRounded[Ordinal(c)] then s.cornerRadius else ZERO
  }

  // ---------------------------------------------------------------------
  // The four-argument radius setter
  // ---------------------------------------------------------------------

  /** The `HashSet<Float>` of the four radii with 0 removed. */
  function NonzeroRadii(tl: Float, tr: Float, br: Float, bl: Float): set<Float> {
    {tl, tr, br, bl} - {ZERO}
  }

  /** The first non-zero radius in corner order; the sole member of `NonzeroRadii` when it has one. */
  function FirstNonzero(tl: Float, tr: Float, br: Float, bl: Float): Float {
    if tl != ZERO then tl else if tr != ZERO then tr else if br != ZERO then br else bl
  }

  /** A radius the four-argument setter accepts: finite and not negative. */
  predicate ValidRadius(r: Float) {
    !NonFinite(r) && !Negative(r)
  }

  /** Two radii agree when either is 0 or they are equal (as `Float.equals` sees them). */
  predicate Agree(x: Float, y: Float) {
    x == ZERO || y == ZERO || x == y
  }

  /** Every two of the four radii agree. */
  predicate Consistent(tl: Float, tr: Float, br: Float, bl: Float) {
    Agree(tl, tr) && Agree(tl, br) && Agree(tl, bl) && Agree(tr, br) && Agree(tr, bl) && Agree(br, bl)
  }

  /**
   * The shared radius the four-argument setter settles on, or what it
   * throws, stated pairwise; `ValidatedRadius` computes it through the
   * source's set of non-zero radii.
   */
  function SharedRadius(tl: Float, tr: Float, br: Float, bl: Float): Result<Float, RadiusError> {
    var first := FirstNonzero(tl, tr, br, bl);
    if !Consistent(tl, tr, br, bl) then Err(MultipleNonzeroRadii)
    else if first == ZERO then Ok(ZERO)
    else if !ValidRadius(first) then Err(InvalidRadius(first))
    else Ok(first)
  }

  /** `setCornerRadius(topLeft, topRight, bottomRight, bottomLeft)`. */
  function WithCornerRadii(s: DrawableState, tl: Float, tr: Float, br: Float, bl: Float)
    : Result<DrawableState, RadiusError>
  {
    match SharedRadius(tl, tr, br, bl)
    case Err(e) => Err(e)
    case Ok(radius) => Ok(s.(cornerRadius := radius, cornersRounded := [Positive(tl), Positive(tr), Positive(br), Positive(bl)]))
  }

  /** Two of the radii are non-zero and differ (as `Float.equals` sees them). */
  predicate Conflicting(radii: seq<Float>) {
    exists i, j :: 0 <= i < |radii| && 0 <= j < |radii| &&
      radii[i] != ZERO && radii[j] != ZERO && radii[i] != radii[j]
  }

  /** No two radii conflict and every non-zero one is valid. */
  predicate AcceptableRadii(radii: seq<Float>) {
    !Conflicting(radii) && forall k :: 0 <= k < |radii| && radii[k] != ZERO ==> ValidRadius(radii[k])
  }

  lemma TwoMembers<T>(s: set<T>, x: T, y: T)
    requires x in s && y in s && x != y
    ensures |s| > 1
  {
    var rest := s - {x};
    assert y in rest;
    assert s == rest + {x};
  }

  lemma AtMostOneMember<T>(s: set<T>, x: T)
    requires forall y :: y in s ==> y == x
    ensures |s| <= 1
  {
    if x in s {
      assert s == {x};
    } else {
      assert s == {};
    }
  }

  /** The source's cardinality test is the same as "two radii disagree". */
  lemma {:induction false} NonzeroRadiiCount(tl: Float, tr: Float, br: Float, bl: Float)
    ensures |NonzeroRadii(tl, tr, br, bl)| > 1 <==> !Consistent(tl, tr, br, bl)
    ensures Consistent(tl, tr, br, bl) ==>
      forall x :: x in NonzeroRadii(tl, tr, br, bl) ==> x == FirstNonzero(tl, tr, br, bl)
  {
    var radii := NonzeroRadii(tl, tr, br, bl);
    var first := FirstNonzero(tl, tr, br, bl);
    if !Consistent(tl, tr, br, bl) {
      var (x, y) :=
        if !Agree(tl, tr) then (tl, tr) else if !Agree(tl, br) then (tl, br) else if !Agree(tl, bl) then (tl, bl)
        else if !Agree(tr, br) then (tr, br) else if !Agree(tr, bl) then (tr, bl) else (br, bl);
      assert x in radii && y in radii && x != y;
      TwoMembers(radii, x, y);
    } else {
      AtMostOneMember(radii, first);
    }
  }

  /** The radius the setter installs is a non-zero input whenever one exists. */
  lemma FirstNonzeroIsInput(tl: Float, tr: Float, br: Float, bl: Float)
    ensures NonzeroRadii(tl, tr, br, bl) != {} <==> FirstNonzero(tl, tr, br, bl) != ZERO
    ensures FirstNonzero(tl, tr, br, bl) in [tl, tr, br, bl]
  {
    var first := FirstNonzero(tl, tr, br, bl);
    if first != ZERO {
      assert first in NonzeroRadii(tl, tr, br, bl);
    }
  }

  /** The pairwise test is the absence of a conflict among the four radii. */
  lemma ConsistentIffNoConflict(tl: Float, tr: Float, br: Float, bl: Float)
    ensures Consistent(tl, tr, br, bl) <==> !Conflicting([tl, tr, br, bl])
  {
    var xs := [tl, tr, br, bl];
    if !Consistent(tl, tr, br, bl) {
      var (i, j) :=
        if !Agree(tl, tr) then (0, 1) else if !Agree(tl, br) then (0, 2) else if !Agree(tl, bl) then (0, 3)
        else if !Agree(tr, br) then (1, 2) else if !Agree(tr, bl) then (1, 3) else (2, 3);
      assert xs[i] != ZERO && xs[j] != ZERO && xs[i] != xs[j];
    } else {
      forall i, j | 0 <= i < 4 && 0 <= j < 4
        ensures Agree(xs[i], xs[j])
      {
      }
    }
  }

  /** Without a disagreement every non-zero radius is the first non-zero one. */
  lemma AgreeingRadii(tl: Float, tr: Float, br: Float, bl: Float)
    requires Consistent(tl, tr, br, bl)
    ensures forall k :: 0 <= k < 4 && [tl, tr, br, bl][k] != ZERO ==> [tl, tr, br, bl][k] == FirstNonzero(tl, tr, br, bl)
  {
  }

  /**
   * The setter's outcome in terms of conflicts: a conflict throws;
   * otherwise all-zero radii give 0, and the one non-zero radius is
   * installed when valid and thrown back when not.
   */
  lemma SharedRadiusOutcome(tl: Float, tr: Float, br: Float, bl: Float)
    ensures Consistent(tl, tr, br, bl) <==> !Conflicting([tl, tr, br, bl])
    ensures var first := FirstNonzero(tl, tr, br, bl);
      SharedRadius(tl, tr, br, bl) ==
        if Conflicting([tl, tr, br, bl]) then Err(MultipleNonzeroRadii)
        else if first == ZERO then Ok(ZERO)
        else if !ValidRadius(first) then Err(InvalidRadius(first))
        else Ok(first)
  {
    ConsistentIffNoConflict(tl, tr, br, bl);
  }

  /**
   * The four-argument setter fails exactly when two radii conflict
   * (`MultipleNonzeroRadii`) or the one non-zero radius is infinite, NaN or
   * negative (`InvalidRadius` of that radius); otherwise it succeeds and the
   * shared radius becomes that radius, or 0 when every input is 0.
   */
  lemma {:induction false} CornerRadiiOutcome(s: DrawableState, tl: Float, tr: Float, br: Float, bl: Float)
    ensures var r := WithCornerRadii(s, tl, tr, br, bl);
      && (r == Err(MultipleNonzeroRadii) <==> Conflicting([tl, tr, br, bl]))
      && (r.Ok? <==> AcceptableRadii([tl, tr, br, bl]))
      && (r.Err? && !Conflicting([tl, tr, br, bl]) ==>
            exists k :: 0 <= k < 4 && [tl, tr, br, bl][k] != ZERO && r.error == InvalidRadius([tl, tr, br, bl][k]))
      && (r.Ok? ==> ValidRadius(r.value.cornerRadius))
      && (r.Ok? ==> (r.value.cornerRadius == ZERO <==> tl == tr == br == bl == ZERO))
  {
    var xs := [tl, tr, br, bl];
    var first := FirstNonzero(tl, tr, br, bl);
    SharedRadiusOutcome(tl, tr, br, bl);
    if !Conflicting(xs) {
      AgreeingRadii(tl, tr, br, bl);
      var m := if tl != ZERO then 0 else if tr != ZERO then 1 else if br != ZERO then 2 else 3;
      assert xs[m] == first;
    }
  }

  /**
   * After a successful four-argument call each corner reports its own input:
   * its flag is set exactly when the input is positive, and
   * `getCornerRadius(corner)` returns the input (corners in ordinal order).
   */
  lemma {:induction false} CornerRadiiRoundTrip(s: DrawableState, tl: Float, tr: Float, br: Float, bl: Float)
    requires WithCornerRadii(s, tl, tr, br, bl).Ok?
    ensures var after := WithCornerRadii(s, tl, tr, br, bl).value;
      forall c :: CornerRadiusOf(after, c) == [tl, tr, br, bl][Ordinal(c)]
  {
    var xs := [tl, tr, br, bl];
    var first := FirstNonzero(tl, tr, br, bl);
    SharedRadiusOutcome(tl, tr, br, bl);
    var radius := if first == ZERO then ZERO else first;
    assert SharedRadius(tl, tr, br, bl) == Ok(radius) && ValidRadius(radius);
    var after := s.(cornerRadius := radius, cornersRounded := [Positive(tl), Positive(tr), Positive(br), Positive(bl)]);
    assert WithCornerRadii(s, tl, tr, br, bl).value == after;
    AgreeingRadii(tl, tr, br, bl);
    forall c
      ensures CornerRadiusOf(after, c) == xs[Ordinal(c)]
    {
      RoundedIffNonzero(xs[Ordinal(c)], radius);
    }
  }

  /** An input that is 0 or the valid shared radius is rounded exactly when it is non-zero. */
  lemma RoundedIffNonzero(x: Float, radius: Float)
    requires x == ZERO || (x == radius && ValidRadius(radius))
    ensures (if Positive(x) then radius else ZERO) == x
  {
  }

  /**
   * `setCornerRadius(r)` sets every corner to r: it succeeds exactly for a
   * valid r, and then all four corners report r.
   */
  lemma {:induction false} UniformCornerRadius(s: DrawableState, r: Float)
    ensures WithCornerRadii(s, r, r, r, r).Ok? <==> ValidRadius(r)
    ensures WithCornerRadii(s, r, r, r, r).Ok? ==>
      forall c :: CornerRadiusOf(WithCornerRadii(s, r, r, r, r).value, c) == r
  {
    CornerRadiiOutcome(s, r, r, r, r);
    if WithCornerRadii(s, r, r, r, r).Ok? {
      CornerRadiiRoundTrip(s, r, r, r, r);
    }
  }

  // ---------------------------------------------------------------------
  // The per-corner radius setter
  // ---------------------------------------------------------------------

  /** `setCornerRadius(corner, radius)`. */
  function WithCorner(s: DrawableState, c: Corner, radius: Float): (r: Result<DrawableState, RadiusError>)
  {
    if !IsZero(radius) && !IsZero(s.cornerRadius) && !FEq(s.cornerRadius, radius) then
      Err(MultipleNonzeroRadii)
    else if IsZero(radius) then
      Ok(s.(cornerRadius := if OnlySet(Ordinal(c), s.cornersRounded) then ZERO else s.cornerRadius,
            cornersRounded := s.cornersRounded[Ordinal(c) := false]))
    else
      Ok(s.(cornerRadius := if IsZero(s.cornerRadius) then radius else s.cornerRadius,
            cornersRounded := s.cornersRounded[Ordinal(c) := true]))
  }

  /**
   * The per-corner setter throws exactly when the new and the current radius
   * are both non-zero and differ. Otherwise the corner then reports the new
   * radius (0 for 0), every other corner keeps its flag, a non-zero radius
   * becomes the shared one only when the shared one was 0, and 0 resets the
   * shared radius only when that corner was the sole rounded one.
   */
  lemma {:induction false} CornerOutcome(s: DrawableState, c: Corner, radius: Float)
    ensures var r := WithCorner(s, c, radius);
      && (r.Err? <==> !IsZero(radius) && !IsZero(s.cornerRadius) && !FEq(s.cornerRadius, radius))
      && (r.Ok? ==> CornerRadiusOf(r.value, c) == if IsZero(radius) then ZERO else radius)
      && (r.Ok? ==> forall d :: d != c ==> r.value.cornersRounded[Ordinal(d)] == s.cornersRounded[Ordinal(d)])
      && (r.Ok? && !IsZero(radius) ==>
            r.value.cornerRadius == if IsZero(s.cornerRadius) then radius else s.cornerRadius)
      && (r.Ok? && IsZero(radius) ==>
            r.value.cornerRadius == if OnlySet(Ordinal(c), s.cornersRounded) then ZERO else s.cornerRadius)
  {
    var r := WithCorner(s, c, radius);
    if r.Ok? && !IsZero(radius) && !IsZero(s.cornerRadius) {
      assert FEq(s.cornerRadius, radius);
      assert s.cornerRadius == radius;
    }
    if r.Ok? && IsZero(radius) {
      assert radius == ZERO;
    }
  }

  /**
   * The per-corner setter does not check the radius as the four-argument one
   * does: on a drawable whose radius is 0 it installs a negative radius.
   */
  lemma PerCornerSetterSkipsValidation(s: DrawableState)
    requires s.cornerRadius == ZERO
    ensures WithCornerRadii(s, Num(-1.0), ZERO, ZERO, ZERO).Err?
    ensures WithCorner(s, TopLeft, Num(-1.0)).Ok?
    ensures WithCorner(s, TopLeft, Num(-1.0)).value.cornerRadius == Num(-1.0)
  {
  }

  /** A non-zero shared radius is never left without a rounded corner to apply to. */
  predicate RadiusBacked(s: DrawableState) {
    !IsZero(s.cornerRadius) ==> AnySet(s.cornersRounded)
  }

  /** The per-corner setter keeps `RadiusBacked`. */
  lemma {:induction false} CornerSetterKeepsRadiusBacked(s: DrawableState, c: Corner, radius: Float)
    requires RadiusBacked(s)
    ensures WithCorner(s, c, radius).Ok? ==> RadiusBacked(WithCorner(s, c, radius).value)
  {
    var i := Ordinal(c);
    var r := WithCorner(s, c, radius);
    if r.Ok? && !IsZero(r.value.cornerRadius) {
      var after := r.value.cornersRounded;
      if IsZero(radius) {
        assert !OnlySet(i, s.cornersRounded) && !IsZero(s.cornerRadius);
        var j :| 0 <= j < 4 && s.cornersRounded[j] != (j == i);
        if j != i {
          assert after[j];
        } else {
          var k :| 0 <= k < 4 && s.cornersRounded[k];
          assert after[k];
        }
      } else {
        assert after[i];
      }
    }
  }

  /** The four-argument setter keeps `RadiusBacked`, whatever the state before. */
  lemma {:induction false} CornerRadiiKeepRadiusBacked(s: DrawableState, tl: Float, tr: Float, br: Float, bl: Float)
    ensures WithCornerRadii(s, tl, tr, br, bl).Ok? ==> RadiusBacked(WithCornerRadii(s, tl, tr, br, bl).value)
  {
    var r4 := WithCornerRadii(s, tl, tr, br, bl);
    if r4.Ok? && !IsZero(r4.value.cornerRadius) {
      CornerRadiiOutcome(s, tl, tr, br, bl);
      FirstNonzeroIsInput(tl, tr, br, bl);
      var first := FirstNonzero(tl, tr, br, bl);
      assert first == r4.value.cornerRadius;
      assert Positive(first);
      var m :| 0 <= m < 4 && [tl, tr, br, bl][m] == first;
      assert r4.value.cornersRounded[m];
    }
  }

  lemma InitialRadiusBacked(bitmap: Bitmap)
    ensures RadiusBacked(Initial(bitmap)) && IsZero(Initial(bitmap).cornerRadius)
    ensures forall c :: Initial(bitmap).cornersRounded[Ordinal(c)]
  {
  }

  // ---------------------------------------------------------------------
  // Scale type, tile modes, border, oval and bounds
  // ---------------------------------------------------------------------

  /** `setScaleType`: a null scale type means FIT_CENTER; a change recomputes the shader layout. */
  function WithScaleType(s: DrawableState, scaleType: Option<ScaleType>): DrawableState {
    var t := scaleType.GetOr(FitCenter);
    if s.scaleType != t then s.(scaleType := t, layout := Some(ShaderLayout(t, s.borderWidth, s.bounds)))
    else s
  }

  /** `setTileModeX`: a change asks for the shader to be rebuilt. */
  function WithTileModeX(s: DrawableState, mode: TileMode): DrawableState {
    if s.tileModeX != mode then s.(tileModeX := mode, rebuildShader := true) else s
  }

  /** `setTileModeY`. */
  function WithTileModeY(s: DrawableState, mode: TileMode): DrawableState {
    if s.tileModeY != mode then s.(tileModeY := mode, rebuildShader := true) else s
  }

  /** `setBorderWidth`: the shader layout is not recomputed. */
  function WithBorderWidth(s: DrawableState, width: Float): DrawableState {
    s.(borderWidth := width)
  }

  /** `setBorderColor(colors)`: null becomes `ColorStateList.valueOf(0)`. */
  function WithBorderColors(s: DrawableState, colors: Option<ColorStateList>): DrawableState {
    s.(borderColors := colors.GetOr(ValueOf(TRANSPARENT)))
  }

  /** `setOval`. */
  function WithOval(s: DrawableState, oval: bool): DrawableState {
    s.(oval := oval)
  }

  /** `onBoundsChange`: new bounds and a recomputed shader layout. */
  function WithBounds(s: DrawableState, bounds: Rect): DrawableState {
    s.(bounds := bounds, layout := Some(ShaderLayout(s.scaleType, s.borderWidth, bounds)))
  }

  /** The shader layout was last computed from the drawable's current scale type, border width and bounds. */
  predicate LayoutCurrent(s: DrawableState) {
    s.layout == Some(ShaderLayout(s.scaleType, s.borderWidth, s.bounds))
  }

  /**
   * The change-detecting setters settle: after one the drawable reports the
   * requested value (FIT_CENTER for a null scale type), so repeating the
   * call changes nothing, and a tile setter asks for a rebuild exactly when
   * the mode changed.
   */
  lemma SettersSettle(s: DrawableState, t: Option<ScaleType>, mx: TileMode, my: TileMode)
    ensures && WithScaleType(s, t).scaleType == t.GetOr(FitCenter)
            && WithTileModeX(s, mx).tileModeX == mx && WithTileModeY(s, my).tileModeY == my
    ensures && WithScaleType(WithScaleType(s, t), t) == WithScaleType(s, t)
            && WithTileModeX(WithTileModeX(s, mx), mx) == WithTileModeX(s, mx)
            && WithTileModeY(WithTileModeY(s, my), my) == WithTileModeY(s, my)
    ensures WithTileModeX(s, mx).rebuildShader <==> s.rebuildShader || mx != s.tileModeX
    ensures WithTileModeY(s, my).rebuildShader <==> s.rebuildShader || my != s.tileModeY
  {
  }

  /** The two tile setters commute. */
  lemma TileSettersCommute(s: DrawableState, mx: TileMode, my: TileMode)
    ensures WithTileModeY(WithTileModeX(s, mx), my) == WithTileModeX(WithTileModeY(s, my), mx)
  {
    if s.tileModeX != mx && s.tileModeY != my {
      assert WithTileModeY(WithTileModeX(s, mx), my) == s.(tileModeX := mx, tileModeY := my, rebuildShader := true);
    }
  }

  /** The scale-type setter commutes with each tile setter. */
  lemma ScaleAndTileSettersCommute(s: DrawableState, t: Option<ScaleType>, mx: TileMode, my: TileMode)
    ensures WithTileModeX(WithScaleType(s, t), mx) == WithScaleType(WithTileModeX(s, mx), t)
    ensures WithTileModeY(WithScaleType(s, t), my) == WithScaleType(WithTileModeY(s, my), t)
  {
    var st := t.GetOr(FitCenter);
    if s.scaleType != st {
      var layout := Some(ShaderLayout(st, s.borderWidth, s.bounds));
      assert WithScaleType(s, t) == s.(scaleType := st, layout := layout);
      if s.tileModeX != mx {
        assert WithTileModeX(WithScaleType(s, t), mx) == s.(scaleType := st, layout := layout, tileModeX := mx, rebuildShader := true);
      }
      if s.tileModeY != my {
        assert WithTileModeY(WithScaleType(s, t), my) == s.(scaleType := st, layout := layout, tileModeY := my, rebuildShader := true);
      }
    }
  }

  /**
   * `onBoundsChange` leaves the shader layout computed from the current
   * scale type, border width and bounds, and the scale-type and tile
   * setters keep it so.
   */
  lemma LayoutStaysCurrent(s: DrawableState, t: Option<ScaleType>, mx: TileMode, my: TileMode, bounds: Rect)
    ensures LayoutCurrent(WithBounds(s, bounds))
    ensures LayoutCurrent(s) ==>
      LayoutCurrent(WithScaleType(s, t)) && LayoutCurrent(WithTileModeX(s, mx)) && LayoutCurrent(WithTileModeY(s, my))
  {
  }

  // ---------------------------------------------------------------------
  // draw
  // ---------------------------------------------------------------------

  datatype Paint = BitmapPaint | BorderPaint

  /** The bitmap shader `draw` installs: its tile modes, and whether it carries the local matrix. */
  datatype Shader = Shader(tileModeX: TileMode, tileModeY: TileMode, withMatrix: bool)

  /** The canvas calls `draw` makes after installing the shader. */
  datatype DrawCommand =
    | DrawOval(rect: RectF, paint: Paint)
    | DrawRoundRect(rect: RectF, radius: Float, paint: Paint)
    | DrawRect(rect: RectF, paint: Paint)
      /** the bitmap paint over `PatchRectAsWritten(corner, rect, radius)`, the rectangle the source sets (`PatchRect` is the intended square) */
    | DrawSquarePatch(corner: Corner, rect: RectF, radius: Float)
      /** the two border segments along the edges of a square corner */
    | DrawBorderLines(corner: Corner, rect: RectF, radius: Float, borderWidth: Float)

  /** A new bitmap shader when the rebuild flag is set; its local matrix only when both modes are CLAMP. */
  function ShaderOf(s: DrawableState): Option<Shader> {
    if s.rebuildShader then Some(Shader(s.tileModeX, s.tileModeY, s.tileModeX == Clamp && s.tileModeY == Clamp))
    else None
  }

  /** The corners whose flag is clear, in the order TL, TR, BR, BL. */
  function SquareCorners(b: Flags): seq<Corner> {
    (if !b[0] then [TopLeft] else []) +
    (if !b[1] then [TopRight] else []) +
    (if !b[2] then [BottomRight] else []) +
    (if !b[3] then [BottomLeft] else [])
  }

  /** A corner is listed exactly when its flag is clear; none is listed twice. */
  lemma SquareCornersMeaning(b: Flags)
    ensures forall c :: c in SquareCorners(b) <==> !b[Ordinal(c)]
    ensures |SquareCorners(b)| <= 4
    ensures EverySet(b) ==> SquareCorners(b) == []
  {
    var p0: seq<Corner> := if !b[0] then [TopLeft] else [];
    var p1: seq<Corner> := if !b[1] then [TopRight] else [];
    var p2: seq<Corner> := if !b[2] then [BottomRight] else [];
    var p3: seq<Corner> := if !b[3] then [BottomLeft] else [];
    assert SquareCorners(b) == p0 + p1 + p2 + p3;
    forall c
      ensures c in p0 + p1 + p2 + p3 <==> !b[Ordinal(c)]
    {
      assert c in p0 + p1 + p2 + p3 <==> c in p0 || c in p1 || c in p2 || c in p3;
    }
    if EverySet(b) {
      assert b[0] && b[1] && b[2] && b[3];
    }
  }

  /** One bitmap patch per listed corner. */
  function Patches(cs: seq<Corner>, rect: RectF, r: Float): seq<DrawCommand> {
    seq(|cs|, k requires 0 <= k < |cs| => DrawSquarePatch(cs[k], rect, r))
  }

  /** One pair of border segments per listed corner. */
  function BorderLines(cs: seq<Corner>, rect: RectF, r: Float, w: Float): seq<DrawCommand> {
    seq(|cs|, k requires 0 <= k < |cs| => DrawBorderLines(cs[k], rect, r, w))
  }

  /** Listing one more corner adds its patch at the end. */
  lemma PatchesSnoc(cs: seq<Corner>, c: Corner, rect: RectF, r: Float)
    ensures Patches(cs + [c], rect, r) == Patches(cs, rect, r) + [DrawSquarePatch(c, rect, r)]
  {
    assert forall k :: 0 <= k < |cs| ==> (cs + [c])[k] == cs[k];
  }

  /** Listing one more corner adds its border segments at the end. */
  lemma BorderLinesSnoc(cs: seq<Corner>, c: Corner, rect: RectF, r: Float, w: Float)
    ensures BorderLines(cs + [c], rect, r, w) == BorderLines(cs, rect, r, w) + [DrawBorderLines(c, rect, r, w)]
  {
    assert forall k :: 0 <= k < |cs| ==> (cs + [c])[k] == cs[k];
  }

  /** `redrawBitmapForSquareCorners`: a patch per corner that is not rounded. */
  function SquareCornerPatches(s: DrawableState, rect: RectF): seq<DrawCommand>
  {
    if NoneSet(s.cornersRounded) || IsZero(s.cornerRadius) then []
    else Patches(SquareCorners(s.cornersRounded), rect, s.cornerRadius)
  }

  /** `redrawBorderForSquareCorners`: two border segments per corner that is not rounded. */
  function SquareCornerBorders(s: DrawableState, rect: RectF): seq<DrawCommand>
  {
    if NoneSet(s.cornersRounded) || IsZero(s.cornerRadius) then []
    else BorderLines(SquareCorners(s.cornersRounded), rect, s.cornerRadius, s.borderWidth)
  }

  /** The shapes `draw` emits; `rect` is both the drawable and the border rectangle. */
  function Shapes(s: DrawableState, rect: RectF): seq<DrawCommand>
  {
    if s.oval then
      if Positive(s.borderWidth) then [DrawOval(rect, BitmapPaint), DrawOval(rect, BorderPaint)]
      else [DrawOval(rect, BitmapPaint)]
    else if AnySet(s.cornersRounded) then
      if Positive(s.borderWidth) then
        [DrawRoundRect(rect, s.cornerRadius, BitmapPaint), DrawRoundRect(rect, s.cornerRadius, BorderPaint)]
        + SquareCornerPatches(s, rect) + SquareCornerBorders(s, rect)
      else
        [DrawRoundRect(rect, s.cornerRadius, BitmapPaint)] + SquareCornerPatches(s, rect)
    else
      [DrawRect(rect, BitmapPaint), DrawRect(rect, BorderPaint)]
  }

  /** `draw`: the shader it installs, the shapes it draws, and the state after it (rebuild flag cleared). */
  function Drawn(s: DrawableState, rect: RectF): (Option<Shader>, seq<DrawCommand>, DrawableState)
  {
    (ShaderOf(s), Shapes(s, rect), s.(rebuildShader := false))
  }

  /**
   * Oval mode draws only ovals, whatever the corner state: the bitmap oval,
   * and a border oval exactly when the border width is positive.
   */
  lemma OvalSuppressesCorners(s: DrawableState, rect: RectF)
    requires s.oval
    ensures forall cmd :: cmd in Shapes(s, rect) ==> cmd.DrawOval?
    ensures DrawOval(rect, BitmapPaint) in Shapes(s, rect)
    ensures DrawOval(rect, BorderPaint) in Shapes(s, rect) <==> Positive(s.borderWidth)
  {
  }

  /**
   * Outside oval mode: with no corner rounded, a plain bitmap rectangle and
   * border rectangle; with some corner rounded, a rounded rectangle of the
   * shared radius and, when that radius is not 0, a square patch of that
   * radius exactly at each corner that is not rounded (none when it is 0).
   */
  lemma {:induction false} RoundRectPatches(s: DrawableState, rect: RectF)
    requires !s.oval
    ensures !AnySet(s.cornersRounded) ==> Shapes(s, rect) == [DrawRect(rect, BitmapPaint), DrawRect(rect, BorderPaint)]
    ensures AnySet(s.cornersRounded) ==> Shapes(s, rect)[0] == DrawRoundRect(rect, s.cornerRadius, BitmapPaint)
    ensures AnySet(s.cornersRounded) && !IsZero(s.cornerRadius) ==>
      forall c :: DrawSquarePatch(c, rect, s.cornerRadius) in Shapes(s, rect) <==> !s.cornersRounded[Ordinal(c)]
    ensures forall cmd :: cmd in Shapes(s, rect) && cmd.DrawSquarePatch? ==>
      cmd.rect == rect && cmd.radius == s.cornerRadius && !IsZero(s.cornerRadius)
  {
    var b := s.cornersRounded;
    var shapes := Shapes(s, rect);
    if AnySet(b) {
      assert !NoneSet(b);
      var patches := SquareCornerPatches(s, rect);
      var borders := SquareCornerBorders(s, rect);
      var head := if Positive(s.borderWidth) then
        [DrawRoundRect(rect, s.cornerRadius, BitmapPaint), DrawRoundRect(rect, s.cornerRadius, BorderPaint)]
        else [DrawRoundRect(rect, s.cornerRadius, BitmapPaint)];
      var tail := if Positive(s.borderWidth) then borders else [];
      assert shapes == head + patches + tail;
      forall cmd | cmd in shapes && cmd.DrawSquarePatch?
        ensures cmd in patches
      {
        assert cmd !in head;
        assert cmd !in tail;
      }
      if !IsZero(s.cornerRadius) {
        var cs := SquareCorners(b);
        SquareCornersMeaning(b);
        assert patches == Patches(cs, rect, s.cornerRadius);
        forall c
          ensures DrawSquarePatch(c, rect, s.cornerRadius) in shapes <==> !b[Ordinal(c)]
        {
          if !b[Ordinal(c)] {
            var k :| 0 <= k < |cs| && cs[k] == c;
            assert patches[k] == DrawSquarePatch(c, rect, s.cornerRadius);
          }
        }
      }
    }
  }

  /**
   * `all` returns true iff no flag is set, against its name and comment. In
   * `draw` it is only reached once `any` held, so it never returns early, and
   * the patches equal those of the guard the comment describes.
   */
  lemma AllGuardIsHarmless(s: DrawableState, rect: RectF)
    requires AnySet(s.cornersRounded)
    ensures !NoneSet(s.cornersRounded)
    ensures EverySet(s.cornersRounded) || IsZero(s.cornerRadius) ==> SquareCornerPatches(s, rect) == []
  {
    SquareCornersMeaning(s.cornersRounded);
  }

  /**
   * `draw` installs a shader exactly when the rebuild flag is set, with the
   * current tile modes and the local matrix only for CLAMP × CLAMP, and
   * always clears the flag, changing nothing else; a second draw installs
   * none and draws the same shapes.
   */
  lemma DrawRebuildsShaderOnce(s: DrawableState, rect: RectF)
    ensures var (shader, shapes, after) := Drawn(s, rect);
      && after == s.(rebuildShader := false)
      && (shader.Some? <==> s.rebuildShader)
      && (shader.Some? ==> (shader.value.withMatrix <==> s.tileModeX == Clamp && s.tileModeY == Clamp))
      && Drawn(after, rect) == (None, shapes, after)
  {
  }

  /**
   * The square a patch is meant to cover: radius × radius, flush with the
   * rectangle's edges at that corner.
   */
  function PatchRect(c: Corner, rect: RectF, radius: real): (p: RectF) {
    var right := rect.left + rect.Width();
    var bottom := rect.top + rect.Height();
    match c
    case TopLeft => RectF(rect.left, rect.top, rect.left + radius, rect.top + radius)
    case TopRight => RectF(right - radius, rect.top, right, rect.top + radius)
    case BottomRight => RectF(right - radius, bottom - radius, right, bottom)
    case BottomLeft => RectF(rect.left, bottom - radius, rect.left + radius, bottom)
  }

  /** The patch rectangles `redrawBitmapForSquareCorners` sets, as written (top-right bottom edge = radius). */
  function PatchRectAsWritten(c: Corner, rect: RectF, radius: real): (p: RectF) {
    var right := rect.left + rect.Width();
    var bottom := rect.top + rect.Height();
    match c
    case TopLeft => RectF(rect.left, rect.top, rect.left + radius, rect.top + radius)
    case TopRight => RectF(right - radius, rect.top, right, radius)
    case BottomRight => RectF(right - radius, bottom - radius, right, bottom)
    case BottomLeft => RectF(rect.left, bottom - radius, rect.left + radius, bottom)
  }

  /** Each intended patch covers exactly the radius × radius square at its corner of `rect`. */
  lemma PatchCoversCorner(c: Corner, rect: RectF, radius: real)
    ensures var p := PatchRect(c, rect, radius);
      && p.Width() == radius && p.Height() == radius
      && (c == TopLeft || c == BottomLeft ==> p.left == rect.left)
      && (c == TopRight || c == BottomRight ==> p.right == rect.right)
      && (c == TopLeft || c == TopRight ==> p.top == rect.top)
      && (c == BottomLeft || c == BottomRight ==> p.bottom == rect.bottom)
  {
  }

  /**
   * The written patches agree with the intended ones except the top-right
   * one, which is wrong whenever the rectangle's top is not 0: for a
   * rectangle whose top is 10 and a radius of 20 it is 10 high instead of 20.
   */
  lemma TopRightPatchAsWritten(c: Corner, rect: RectF, radius: real)
    ensures PatchRectAsWritten(c, rect, radius) == PatchRect(c, rect, radius) <==> c != TopRight || rect.top == 0.0
    ensures PatchRectAsWritten(TopRight, RectF(0.0, 10.0, 100.0, 110.0), 20.0).Height() == 10.0
  {
  }

  // ---------------------------------------------------------------------
  // The drawable tree and fromDrawable
  // ---------------------------------------------------------------------

  /**
   * A drawable: a `RoundedDrawable` (by its state), a `LayerDrawable` (its
   * layers in order), or any other drawable, with the bitmap that
   * `drawableToBitmap` obtains from it (`None` when it yields null).
   */
  datatype Drawable =
    | Rounded(state: DrawableState)
    | Layers(layers: seq<Drawable>)
    | Plain(id: nat, snapshot: Option<Bitmap>)

  /** `fromDrawable` on a non-null drawable. */
  function Converted(d: Drawable): Drawable
    decreases d
  {
    match d
    case Rounded(_) => d
    case Layers(ls) => Layers(seq(|ls|, k requires 0 <= k < |ls| => Converted(ls[k])))
    case Plain(_, snapshot) => if snapshot.Some? then Rounded(Initial(snapshot.value)) else d
  }

  /** `fromDrawable`, null included. */
  function ConvertedOrNull(d: Option<Drawable>): Option<Drawable> {
    if d.None? then None else Some(Converted(d.value))
  }

  /** No leaf is left that `fromDrawable` could turn into a rounded drawable. */
  predicate FullyConverted(d: Drawable)
    decreases d
  {
    match d
    case Rounded(_) => true
    case Layers(ls) => forall k :: 0 <= k < |ls| ==> FullyConverted(ls[k])
    case Plain(_, snapshot) => snapshot.None?
  }

  /**
   * `fromDrawable` rounds every leaf it can, keeps the layer structure and
   * the rounded drawables it finds, and changes nothing in a tree that is
   * already converted, so applying it twice is applying it once.
   */
  lemma {:induction false} ConvertedIsFullyConverted(d: Drawable)
    ensures FullyConverted(Converted(d))
    ensures d.Layers? ==> Converted(d).Layers? && |Converted(d).layers| == |d.layers|
    decreases d
  {
    match d
    case Rounded(_) =>
    case Plain(_, _) =>
    case Layers(ls) =>
      var out := Converted(d).layers;
      forall k | 0 <= k < |ls|
        ensures FullyConverted(out[k])
      {
        ConvertedIsFullyConverted(ls[k]);
      }
  }

  lemma {:induction false} ConvertedFixesConverted(d: Drawable)
    requires FullyConverted(d)
    ensures Converted(d) == d
    decreases d
  {
    match d
    case Rounded(_) =>
    case Plain(_, _) =>
    case Layers(ls) =>
      forall k | 0 <= k < |ls|
        ensures Converted(ls[k]) == ls[k]
      {
        ConvertedFixesConverted(ls[k]);
      }
      assert Converted(d).layers == ls;
  }

  lemma ConvertedIdempotent(d: Drawable)
    ensures Converted(Converted(d)) == Converted(d)
  {
    ConvertedIsFullyConverted(d);
    ConvertedFixesConverted(Converted(d));
  }

  /** `View.NO_ID`, the id of a layer added without one. */
  const NO_ID: int := -1

  /** `LayerDrawable.findIndexByLayerId`: the first layer carrying `id`, or `|ids|` when none does. */
  function IndexOfId(ids: seq<int>, id: int): (k: nat)
    ensures k <= |ids|
    ensures k < |ids| <==> id in ids
    ensures k < |ids| ==> ids[k] == id
    ensures forall j :: 0 <= j < k ==> ids[j] != id
    decreases |ids|
  {
    if |ids| == 0 then 0
    else if ids[0] == id then 0
    else 1 + IndexOfId(ids[1..], id)
  }

  /**
   * The layer loop of `fromDrawable` as written, from layer `i` on: layer
   * `i` is read from the layers as the loop has left them so far, and its
   * conversion is stored through `setDrawableByLayerId` under the id of
   * layer `i`, that is into the first layer carrying that id.
   */
  function ConvertedLayersAsWritten(ls: seq<Drawable>, ids: seq<int>, i: nat): (out: seq<Drawable>)
    requires |ids| == |ls| && i <= |ls|
    ensures |out| == |ls|
    decreases |ls| - i
  {
    if i == |ls| then ls
    else
      var k := IndexOfId(ids, ids[i]);
      assert k <= i;
      ConvertedLayersAsWritten(ls[k := Converted(ls[i])], ids, i + 1)
  }

  /** No two layers share an id. */
  predicate DistinctIds(ids: seq<int>) {
    forall j, k :: 0 <= j < k < |ids| ==> ids[j] != ids[k]
  }

  /**
   * Two layers added without ids both carry `NO_ID`, so the loop as written
   * stores every conversion into the first layer: two convertible plain
   * layers end as the conversion of the second followed by the second
   * unconverted, and two rounded layers end as two copies of the second.
   */
  lemma LayerIdsAsWritten(b0: Bitmap, b1: Bitmap, s0: DrawableState, s1: DrawableState)
    ensures ConvertedLayersAsWritten([Plain(0, Some(b0)), Plain(1, Some(b1))], [NO_ID, NO_ID], 0)
            == [Rounded(Initial(b1)), Plain(1, Some(b1))]
    ensures ConvertedLayersAsWritten([Plain(0, Some(b0)), Plain(1, Some(b1))], [NO_ID, NO_ID], 0)
            != Converted(Layers([Plain(0, Some(b0)), Plain(1, Some(b1))])).layers
    ensures ConvertedLayersAsWritten([Rounded(s0), Rounded(s1)], [NO_ID, NO_ID], 0) == [Rounded(s1), Rounded(s1)]
  {
    var ids := [NO_ID, NO_ID];
    assert IndexOfId(ids, NO_ID) == 0;
    var plain := [Plain(0, Some(b0)), Plain(1, Some(b1))];
    var p1 := plain[0 := Rounded(Initial(b0))];
    assert ConvertedLayersAsWritten(plain, ids, 0) == ConvertedLayersAsWritten(p1, ids, 1);
    assert ConvertedLayersAsWritten(p1, ids, 1) == ConvertedLayersAsWritten(p1[0 := Rounded(Initial(b1))], ids, 2);
    assert Converted(Layers(plain)).layers[1] == Rounded(Initial(b1));
    var rounded := [Rounded(s0), Rounded(s1)];
    assert rounded[0 := Converted(rounded[0])] == rounded;
    assert ConvertedLayersAsWritten(rounded, ids, 0) == ConvertedLayersAsWritten(rounded, ids, 1);
    assert ConvertedLayersAsWritten(rounded, ids, 1) == ConvertedLayersAsWritten(rounded[0 := Rounded(s1)], ids, 2);
  }

  /**
   * When no two layers share an id the loop as written converts each layer
   * in its own place, which is what `Converted` describes.
   */
  lemma DistinctIdsConvertInPlace(ls: seq<Drawable>, ids: seq<int>)
    requires |ids| == |ls| && DistinctIds(ids)
    ensures ConvertedLayersAsWritten(ls, ids, 0) == Converted(Layers(ls)).layers
  {
    ConvertedFrom(ls, ls, ids, 0);
  }

  /** The loop invariant behind `DistinctIdsConvertInPlace`: layers before `i` are converted, the rest untouched. */
  lemma {:induction false} ConvertedFrom(orig: seq<Drawable>, cur: seq<Drawable>, ids: seq<int>, i: nat)
    requires |ids| == |orig| == |cur| && DistinctIds(ids) && i <= |orig|
    requires forall k :: 0 <= k < i ==> cur[k] == Converted(orig[k])
    requires forall k :: i <= k < |orig| ==> cur[k] == orig[k]
    ensures ConvertedLayersAsWritten(cur, ids, i) == Converted(Layers(orig)).layers
    decreases |orig| - i
  {
    if i == |orig| {
      assert cur == Converted(Layers(orig)).layers;
    } else {
      assert IndexOfId(ids, ids[i]) == i;
      ConvertedFrom(orig, cur[i := Converted(cur[i])], ids, i + 1);
    }
  }

  // ---------------------------------------------------------------------
  // The class
  // ---------------------------------------------------------------------

  class RoundedDrawable {
    const sourceBitmap: Bitmap
    var tileModeX: TileMode
    var tileModeY: TileMode
    var rebuildShader: bool
    var cornerRadius: Float
    /** [topLeft, topRight, bottomRight, bottomLeft], indexed by `Ordinal`. */
    const cornersRounded: array<bool>
    var oval: bool
    var borderWidth: Float
    var borderColors: ColorStateList
    var scaleType: ScaleType
    var bounds: Rect
    var layout: Option<ShaderLayout>

    ghost predicate Valid()
      reads this
    {
      cornersRounded.Length == 4
    }

    /** The drawable's state as a value. */
    ghost function State(): DrawableState
      requires Valid()
      reads this, cornersRounded
    {
      DrawableState(sourceBitmap, tileModeX, tileModeY, rebuildShader, cornerRadius, cornersRounded[..],
                    oval, borderWidth, borderColors, scaleType, bounds, layout)
    }

    constructor (bitmap: Bitmap)
      ensures Valid() && fresh(cornersRounded)
      ensures State() == Initial(bitmap)
    {
      sourceBitmap := bitmap;
      tileModeX, tileModeY := Clamp, Clamp;
      rebuildShader := true;
      cornerRadius := ZERO;
      cornersRounded := new bool[4](_ => true);
      oval := false;
      borderWidth := ZERO;
      borderColors := ValueOf(BLACK);
      scaleType := FitCenter;
      bounds := Rect(0, 0, 0, 0);
      layout := None;
      new;
      assert cornersRounded[..] == [true, true, true, true];
    }

    /** `only(index, booleans)`. */
    static method Only(index: int, booleans: array<bool>) returns (r: bool)
      ensures r == OnlySet(index, booleans[..])
    {
      var i := 0;
      var len := booleans.Length;
      while i < len
        invariant 0 <= i <= len
        invariant forall j :: 0 <= j < i ==> booleans[j] == (j == index)
      {
        if booleans[i] != (i == index) {
          return false;
        }
        i := i + 1;
      }
      return true;
    }

    /** `any(booleans)`. */
    static method Any(booleans: array<bool>) returns (r: bool)
      ensures r == AnySet(booleans[..])
    {
      for i := 0 to booleans.Length
        invariant forall j :: 0 <= j < i ==> !booleans[j]
      {
        if booleans[i] {
          return true;
        }
      }
      return false;
    }

    /** `all(booleans)`, which returns true iff no flag is set. */
    static method All(booleans: array<bool>) returns (r: bool)
      ensures r == NoneSet(booleans[..])
    {
      for i := 0 to booleans.Length
        invariant forall j :: 0 <= j < i ==> !booleans[j]
      {
        if booleans[i] {
          return false;
        }
      }
      return true;
    }

    /** `getCornerRadius(corner)`. */
    method GetCornerRadiusAt(corner: Corner) returns (r: Float)
      requires Valid()
      ensures r == CornerRadiusOf(State(), corner)
    {
      r := if cornersRounded[Ordinal(corner)] then cornerRadius else ZERO;
    }

    /** The validation half of `setCornerRadius(topLeft, topRight, bottomRight, bottomLeft)`. */
    static method ValidatedRadius(topLeft: Float, topRight: Float, bottomRight: Float, bottomLeft: Float)
      returns (r: Result<Float, RadiusError>)
      ensures r == SharedRadius(topLeft, topRight, bottomRight, bottomLeft)
    {
      var radiusSet := {topLeft, topRight, bottomRight, bottomLeft} - {ZERO};
      NonzeroRadiiCount(topLeft, topRight, bottomRight, bottomLeft);
      FirstNonzeroIsInput(topLeft, topRight, bottomRight, bottomLeft);
      if |radiusSet| > 1 {
        return Err(MultipleNonzeroRadii);
      }
      if radiusSet != {} {
        var radius :| radius in radiusSet;
        assert radius == FirstNonzero(topLeft, topRight, bottomRight, bottomLeft);
        if NonFinite(radius) || Negative(radius) {
          return Err(InvalidRadius(radius));
        }
        return Ok(radius);
      }
      return Ok(ZERO);
    }

    /** `setCornerRadius(topLeft, topRight, bottomRight, bottomLeft)`; on error nothing changes. */
    method SetCornerRadii(topLeft: Float, topRight: Float, bottomRight: Float, bottomLeft: Float)
      returns (err: Option<RadiusError>)
      requires Valid()
      modifies this, cornersRounded
      ensures Valid()
      ensures var r := WithCornerRadii(old(State()), topLeft, topRight, bottomRight, bottomLeft);
        && (r.Ok? ==> err.None? && State() == r.value)
        && (r.Err? ==> err == Some(r.error) && State() == old(State()))
    {
      var radius := ValidatedRadius(topLeft, topRight, bottomRight, bottomLeft);
      if radius.Err? {
        return Some(radius.error);
      }
      ghost var before := State();
      cornerRadius := radius.value;
      StoreCornerFlags(Positive(topLeft), Positive(topRight), Positive(bottomRight), Positive(bottomLeft));
      assert State() == before.(cornerRadius := radius.value,
        cornersRounded := [Positive(topLeft), Positive(topRight), Positive(bottomRight), Positive(bottomLeft)]);
      err := None;
    }

    /** The four flag writes of the four-argument setter, in ordinal order. */
    method StoreCornerFlags(tl: bool, tr: bool, br: bool, bl: bool)
      requires Valid()
      modifies cornersRounded
      ensures Valid() && cornersRounded[..] == [tl, tr, br, bl]
    {
      cornersRounded[0] := tl;
      cornersRounded[1] := tr;
      cornersRounded[2] := br;
      cornersRounded[3] := bl;
    }

    /** `setCornerRadius(radius)`: the four-argument setter with `radius` on every corner. */
    method SetCornerRadius(radius: Float) returns (err: Option<RadiusError>)
      requires Valid()
      modifies this, cornersRounded
      ensures Valid()
      ensures var r := WithCornerRadii(old(State()), radius, radius, radius, radius);
        && (r.Ok? ==> err.None? && State() == r.value)
        && (r.Err? ==> err == Some(r.error) && State() == old(State()))
    {
      err := SetCornerRadii(radius, radius, radius, radius);
    }

    /** `setCornerRadius(corner, radius)`; on error nothing changes. */
    method SetCornerRadiusAt(corner: Corner, radius: Float) returns (err: Option<RadiusError>)
      requires Valid()
      modifies this, cornersRounded
      ensures Valid()
      ensures var r := WithCorner(old(State()), corner, radius);
        && (r.Ok? ==> err.None? && State() == r.value)
        && (r.Err? ==> err == Some(r.error) && State() == old(State()))
    {
      if !IsZero(radius) && !IsZero(cornerRadius) && !FEq(cornerRadius, radius) {
        return Some(MultipleNonzeroRadii);
      }
      if IsZero(radius) {
        var only := Only(Ordinal(corner), cornersRounded);
        if only {
          cornerRadius := ZERO;
        }
        cornersRounded[Ordinal(corner)] := false;
      } else {
        if IsZero(cornerRadius) {
          cornerRadius := radius;
        }
        cornersRounded[Ordinal(corner)] := true;
      }
      err := None;
    }

    /** `setBorderWidth`. */
    method SetBorderWidth(width: Float)
      requires Valid()
      modifies this
      ensures Valid() && State() == WithBorderWidth(old(State()), width)
    {
      borderWidth := width;
    }

    /** `setBorderColor(colors)`. */
    method SetBorderColor(colors: Option<ColorStateList>)
      requires Valid()
      modifies this
      ensures Valid() && State() == WithBorderColors(old(State()), colors)
    {
      borderColors := if colors.Some? then colors.value else ValueOf(TRANSPARENT);
    }

    /** `setBorderColor(color)`. */
    method SetBorderColorInt(color: Int32)
      requires Valid()
      modifies this
      ensures Valid() && State() == WithBorderColors(old(State()), Some(ValueOf(color)))
    {
      SetBorderColor(Some(ValueOf(color)));
    }

    /** `setOval`. */
    method SetOval(oval: bool)
      requires Valid()
      modifies this
      ensures Valid() && State() == WithOval(old(State()), oval)
    {
      this.oval := oval;
    }

    /** `setScaleType`. */
    method SetScaleType(scaleType: Option<ScaleType>)
      requires Valid()
      modifies this
      ensures Valid() && State() == WithScaleType(old(State()), scaleType)
    {
      var t := if scaleType.None? then FitCenter else scaleType.value;
      if this.scaleType != t {
        this.scaleType := t;
        UpdateShaderMatrix();
      }
    }

    /** `setTileModeX`. */
    method SetTileModeX(mode: TileMode)
      requires Valid()
      modifies this
      ensures Valid() && State() == WithTileModeX(old(State()), mode)
    {
      if tileModeX != mode {
        tileModeX := mode;
        rebuildShader := true;
      }
    }

    /** `setTileModeY`. */
    method SetTileModeY(mode: TileMode)
      requires Valid()
      modifies this
      ensures Valid() && State() == WithTileModeY(old(State()), mode)
    {
      if tileModeY != mode {
        tileModeY := mode;
        rebuildShader := true;
      }
    }

    /** `onBoundsChange`. */
    method OnBoundsChange(bounds: Rect)
      requires Valid()
      modifies this
      ensures Valid() && State() == WithBounds(old(State()), bounds)
    {
      this.bounds := bounds;
      UpdateShaderMatrix();
    }

    /** `updateShaderMatrix`, reduced to recording what it computes from. */
    method UpdateShaderMatrix()
      requires Valid()
      modifies this`layout
      ensures Valid() && layout == Some(ShaderLayout(scaleType, borderWidth, bounds))
    {
      layout := Some(ShaderLayout(scaleType, borderWidth, bounds));
    }

    /** `redrawBitmapForSquareCorners`. */
    method RedrawBitmapForSquareCorners(rect: RectF) returns (cmds: seq<DrawCommand>)
      requires Valid()
      ensures cmds == SquareCornerPatches(State(), rect)
    {
      var none := All(cornersRounded);
      if none {
        return [];
      }
      if IsZero(cornerRadius) {
        return [];
      }
      ghost var corners: seq<Corner> := [];
      cmds := [];
      if !cornersRounded[Ordinal(TopLeft)] {
        PatchesSnoc(corners, TopLeft, rect, cornerRadius);
        cmds, corners := cmds + [DrawSquarePatch(TopLeft, rect, cornerRadius)], corners + [TopLeft];
      }
      if !cornersRounded[Ordinal(TopRight)] {
        PatchesSnoc(corners, TopRight, rect, cornerRadius);
        cmds, corners := cmds + [DrawSquarePatch(TopRight, rect, cornerRadius)], corners + [TopRight];
      }
      if !cornersRounded[Ordinal(BottomRight)] {
        PatchesSnoc(corners, BottomRight, rect, cornerRadius);
        cmds, corners := cmds + [DrawSquarePatch(BottomRight, rect, cornerRadius)], corners + [BottomRight];
      }
      if !cornersRounded[Ordinal(BottomLeft)] {
        PatchesSnoc(corners, BottomLeft, rect, cornerRadius);
        cmds, corners := cmds + [DrawSquarePatch(BottomLeft, rect, cornerRadius)], corners + [BottomLeft];
      }
      assert corners == SquareCorners(cornersRounded[..]);
    }

    /** `redrawBorderForSquareCorners`. */
    method RedrawBorderForSquareCorners(rect: RectF) returns (cmds: seq<DrawCommand>)
      requires Valid()
      ensures cmds == SquareCornerBorders(State(), rect)
    {
      var none := All(cornersRounded);
      if none {
        return [];
      }
      if IsZero(cornerRadius) {
        return [];
      }
      ghost var corners: seq<Corner> := [];
      cmds := [];
      if !cornersRounded[Ordinal(TopLeft)] {
        BorderLinesSnoc(corners, TopLeft, rect, cornerRadius, borderWidth);
        cmds, corners := cmds + [DrawBorderLines(TopLeft, rect, cornerRadius, borderWidth)], corners + [TopLeft];
      }
      if !cornersRounded[Ordinal(TopRight)] {
        BorderLinesSnoc(corners, TopRight, rect, cornerRadius, borderWidth);
        cmds, corners := cmds + [DrawBorderLines(TopRight, rect, cornerRadius, borderWidth)], corners + [TopRight];
      }
      if !cornersRounded[Ordinal(BottomRight)] {
        BorderLinesSnoc(corners, BottomRight, rect, cornerRadius, borderWidth);
        cmds, corners := cmds + [DrawBorderLines(BottomRight, rect, cornerRadius, borderWidth)], corners + [BottomRight];
      }
      if !cornersRounded[Ordinal(BottomLeft)] {
        BorderLinesSnoc(corners, BottomLeft, rect, cornerRadius, borderWidth);
        cmds, corners := cmds + [DrawBorderLines(BottomLeft, rect, cornerRadius, borderWidth)], corners + [BottomLeft];
      }
      assert corners == SquareCorners(cornersRounded[..]);
    }

    /** `draw(canvas)`; `rect` is the drawable (= border) rectangle. */
    method Draw(rect: RectF) returns (shader: Option<Shader>, shapes: seq<DrawCommand>)
      requires Valid()
      modifies this`rebuildShader
      ensures Valid()
      ensures (shader, shapes, State()) == Drawn(old(State()), rect)
    {
      shader := None;
      if rebuildShader {
        shader := Some(Shader(tileModeX, tileModeY, tileModeX == Clamp && tileModeY == Clamp));
        rebuildShader := false;
      }
      if oval {
        if Positive(borderWidth) {
          shapes := [DrawOval(rect, BitmapPaint), DrawOval(rect, BorderPaint)];
        } else {
          shapes := [DrawOval(rect, BitmapPaint)];
        }
      } else {
        var anyRounded := Any(cornersRounded);
        if anyRounded {
          var patches := RedrawBitmapForSquareCorners(rect);
          if Positive(borderWidth) {
            var borders := RedrawBorderForSquareCorners(rect);
            shapes := [DrawRoundRect(rect, cornerRadius, BitmapPaint), DrawRoundRect(rect, cornerRadius, BorderPaint)]
              + patches + borders;
          } else {
            shapes := [DrawRoundRect(rect, cornerRadius, BitmapPaint)] + patches;
          }
        } else {
          shapes := [DrawRect(rect, BitmapPaint), DrawRect(rect, BorderPaint)];
        }
      }
    }
  }

  /** `fromDrawable(drawable)`: the layers of a layer drawable are converted one by one. */
  method FromDrawable(drawable: Option<Drawable>) returns (r: Option<Drawable>)
    ensures r == ConvertedOrNull(drawable)
    decreases drawable.GetOr(Plain(0, None))
  {
    if drawable.None? {
      return None;
    }
    var d := drawable.value;
    match d
    case Rounded(_) =>
      return drawable;
    case Layers(ls) =>
      var layers := ls;
      for i := 0 to |ls|
        invariant |layers| == |ls|
        invariant forall k :: 0 <= k < i ==> layers[k] == Converted(ls[k])
        invariant forall k :: i <= k < |ls| ==> layers[k] == ls[k]
      {
        assert Some(layers[i]).GetOr(Plain(0, None)) == ls[i];
        var converted := FromDrawable(Some(layers[i]));
        layers := layers[i := converted.value];
      }
      assert layers == Converted(d).layers;
      return Some(Layers(layers));
    case Plain(_, snapshot) =>
      if snapshot.Some? {
        return Some(Rounded(Initial(snapshot.value)));
      }
      return drawable;
  }
}
