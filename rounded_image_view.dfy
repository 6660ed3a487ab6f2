/**
 * `RoundedImageView`: an image view that keeps four corner-radius slots, a
 * border, an oval flag and a scale type, converts the drawable it is given
 * into rounded drawables, and pushes its attributes to every rounded
 * drawable in that drawable's tree. The view's state is the value
 * `ImageViewState`; each setter is a function on it, and the class
 * `RoundedImageView` is proved against those functions.
 */
module RoundedImageViews {
  import opened Graphics
  import opened RoundedDrawables

  /** The four corner-radius slots. */
  type Radii = r: seq<Float> | |r| == 4 witness [ZERO, ZERO, ZERO, ZERO]

  /** `SCALE_TYPES`: the `android:scaleType` attribute values in order. */
  const SCALE_TYPES: seq<ScaleType> := [Matrix, FitXY, FitStart, FitCenter, FitEnd, Center, CenterCrop, CenterInside]

  /** The tile-mode attribute values. */
  const TILE_MODE_UNDEFINED: Int32 := -2
  const TILE_MODE_CLAMP: Int32 := 0
  const TILE_MODE_REPEAT: Int32 := 1
  const TILE_MODE_MIRROR: Int32 := 2

  /** `parseTileMode`. */
  function ParseTileMode(tileMode: Int32): Option<TileMode> {
    if tileMode == TILE_MODE_CLAMP then Some(Clamp)
    else if tileMode == TILE_MODE_REPEAT then Some(Repeat)
    else if tileMode == TILE_MODE_MIRROR then Some(Mirror)
    else None
  }

  /** The attribute value that stands for a tile mode. */
  function TileModeCode(mode: TileMode): Int32 {
    match mode
    case Clamp => TILE_MODE_CLAMP
    case Repeat => TILE_MODE_REPEAT
    case Mirror => TILE_MODE_MIRROR
  }

  /** `parseTileMode` inverts the attribute encoding and rejects every other value, "undefined" included. */
  lemma ParseTileModeInverts(mode: TileMode, code: Int32)
    ensures ParseTileMode(TileModeCode(mode)) == Some(mode)
    ensures ParseTileMode(code).Some? <==> 0 <= code <= 2
    ensures ParseTileMode(code).Some? ==> TileModeCode(ParseTileMode(code).value) == code
    ensures ParseTileMode(TILE_MODE_UNDEFINED).None?
  {
  }

  /** The scale type an `android:scaleType` index selects when building the view; `None` when `SCALE_TYPES[index]` is out of bounds. */
  function InflatedScaleType(index: Int32): Option<ScaleType> {
    if index < 0 then Some(FitCenter)
    else if index < |SCALE_TYPES| as Int32 then Some(SCALE_TYPES[index])
    else None
  }

  /** The position of a scale type in `SCALE_TYPES`. */
  function ScaleTypeIndex(t: ScaleType): Int32 {
    match t
    case Matrix => 0
    case FitXY => 1
    case FitStart => 2
    case FitCenter => 3
    case FitEnd => 4
    case Center => 5
    case CenterCrop => 6
    case CenterInside => 7
  }

  /**
   * Every scale type has an index that selects it, the indexes 0 to 7 name
   * the eight types, an absent index (negative) means FIT_CENTER, and any
   * larger index fails.
   */
  lemma ScaleTypeIndexRoundTrip(t: ScaleType, index: Int32)
    ensures InflatedScaleType(ScaleTypeIndex(t)) == Some(t)
    ensures 0 <= index < 8 ==> ScaleTypeIndex(InflatedScaleType(index).value) == index
    ensures index < 0 ==> InflatedScaleType(index) == Some(FitCenter)
    ensures InflatedScaleType(index).None? <==> index >= 8
  {
  }

  /** What `setScaleType` hands to `ImageView.setScaleType`: MATRIX stays, every other type becomes FIT_XY. */
  function PlatformScaleType(t: ScaleType): ScaleType {
    match t
    case Matrix => Matrix
    case _ => FitXY
  }

  // ---------------------------------------------------------------------
  // Construction from layout attributes
  // ---------------------------------------------------------------------

  /**
   * The styled attributes the view reads, with the source's defaults for
   * absent ones already applied (-1 for indexes and dimensions, -2 for tile
   * modes, false for booleans, null for the colour list).
   */
  datatype Attributes = Attributes(
    scaleType: Int32,
    cornerRadius: Int32,
    cornerRadiusTopLeft: Int32,
    cornerRadiusTopRight: Int32,
    cornerRadiusBottomRight: Int32,
    cornerRadiusBottomLeft: Int32,
    strokeWidth: Int32,
    strokeColor: Option<ColorStateList>,
    mutateBackground: bool,
    isOval: bool,
    tileMode: Int32,
    tileModeX: Int32,
    tileModeY: Int32)

  /** A layout that sets none of the view's attributes. */
  const NO_ATTRIBUTES: Attributes :=
    Attributes(-1, -1, -1, -1, -1, -1, -1, None, false, false, TILE_MODE_UNDEFINED, TILE_MODE_UNDEFINED, TILE_MODE_UNDEFINED)

  /** The per-corner radius attributes, in corner order. */
  function CornerAttributes(a: Attributes): seq<Int32> {
    [a.cornerRadiusTopLeft, a.cornerRadiusTopRight, a.cornerRadiusBottomRight, a.cornerRadiusBottomLeft]
  }

  /** A negative radius becomes 0. */
  function ClampedRadius(x: Float): Float {
    if Negative(x) then ZERO else x
  }

  /**
   * The slots after construction: when some per-corner attribute is given,
   * each slot takes its own attribute with negatives made 0; otherwise
   * every slot takes the uniform attribute, negatives made 0.
   */
  function NormalisedRadii(a: Attributes): Radii {
    var stated := CornerAttributes(a);
    if exists k :: 0 <= k < 4 && stated[k] >= 0 then
      [ClampedRadius(FromInt(stated[0])), ClampedRadius(FromInt(stated[1])),
       ClampedRadius(FromInt(stated[2])), ClampedRadius(FromInt(stated[3]))]
    else
      var r := ClampedRadius(FromInt(a.cornerRadius));
      [r, r, r, r]
  }

  /**
   * The normalised slots are finite and not negative, so the drawable
   * accepts them whenever they agree; a given per-corner attribute wins over
   * the uniform one for all four corners.
   */
  lemma NormalisedRadiiMeaning(a: Attributes)
    ensures forall k :: 0 <= k < 4 ==> ValidRadius(NormalisedRadii(a)[k])
    ensures (exists k :: 0 <= k < 4 && CornerAttributes(a)[k] >= 0) ==>
      forall k :: 0 <= k < 4 ==>
        NormalisedRadii(a)[k] == if CornerAttributes(a)[k] < 0 then ZERO else FromInt(CornerAttributes(a)[k])
    ensures (forall k :: 0 <= k < 4 ==> CornerAttributes(a)[k] < 0) ==>
      forall k :: 0 <= k < 4 ==>
        NormalisedRadii(a)[k] == if a.cornerRadius < 0 then ZERO else FromInt(a.cornerRadius)
  {
  }

  /** The view's fields that its behaviour depends on. */
  datatype ImageViewState = ImageViewState(
    cornerRadii: Radii,
    borderColors: ColorStateList,
    borderWidth: Float,
    isOval: bool,
    mutateBackground: bool,
    resource: Int32,
    scaleType: ScaleType,
      /** the scale type last handed to `ImageView.setScaleType` by this class, if any */
    platformScaleType: Option<ScaleType>,
    tileModeX: Option<TileMode>,
    tileModeY: Option<TileMode>,
    drawable: Option<Drawable>,
    backgroundDrawable: Option<Drawable>)

  /** The view the one-argument constructor builds. */
  function DefaultState(): ImageViewState {
    ImageViewState([ZERO, ZERO, ZERO, ZERO], ValueOf(BLACK), ZERO, false, false, 0, FitCenter, None,
                   Some(Clamp), Some(Clamp), None, None)
  }

  /** The view the attribute constructor builds; `None` when the scale-type index is out of bounds. */
  function InflatedState(a: Attributes): Option<ImageViewState> {
    var t := InflatedScaleType(a.scaleType);
    if t.None? then None
    else
      Some(ImageViewState(
        NormalisedRadii(a),
        a.strokeColor.GetOr(ValueOf(BLACK)),
        if a.strokeWidth < 0 then ZERO else FromInt(a.strokeWidth),
        a.isOval,
        a.mutateBackground,
        0,
        t.value,
        if t.value != FitCenter then Some(PlatformScaleType(t.value)) else None,
        Some(Clamp),
        Some(Clamp),
        None,
        None))
  }

  /**
   * Building from attributes fails only for a scale-type index past the
   * end of `SCALE_TYPES`; the border width is never negative, a missing
   * stroke colour is black, the tile-mode attributes have no effect, and a
   * layout without attributes gives the default view.
   */
  lemma InflatedStateMeaning(a: Attributes)
    ensures InflatedState(a).None? <==> a.scaleType >= 8
    ensures InflatedState(a).Some? ==>
      var v := InflatedState(a).value;
      && ValidRadius(v.borderWidth)
      && (a.strokeColor.None? ==> v.borderColors == ValueOf(BLACK))
      && v.tileModeX == Some(Clamp) && v.tileModeY == Some(Clamp)
      && v.cornerRadii == NormalisedRadii(a)
    ensures InflatedState(NO_ATTRIBUTES) == Some(DefaultState())
  {
    assert NormalisedRadii(NO_ATTRIBUTES) == [ZERO, ZERO, ZERO, ZERO];
  }

  // ---------------------------------------------------------------------
  // Pushing the view's attributes into the drawable tree (updateAttrs)
  // ---------------------------------------------------------------------

  /** What `updateAttrs` hands to each rounded drawable. */
  datatype PushedAttrs = PushedAttrs(
    scaleType: ScaleType,
    borderWidth: Float,
    borderColors: ColorStateList,
    oval: bool,
    tileModeX: TileMode,
    tileModeY: TileMode,
    radii: Radii)

  /** The attributes a view pushes; `None` when a tile mode is null, where `updateAttrs` does nothing. */
  function AttrsOf(v: ImageViewState): Option<PushedAttrs> {
    if v.tileModeX.None? || v.tileModeY.None? then None
    else Some(PushedAttrs(v.scaleType, v.borderWidth, v.borderColors, v.isOval,
                          v.tileModeX.value, v.tileModeY.value, v.cornerRadii))
  }

  /** The chained setters on one rounded drawable, before the radii. */
  function WithPlainAttrs(s: DrawableState, a: PushedAttrs): DrawableState {
    WithTileModeY(WithTileModeX(WithOval(WithBorderColors(WithBorderWidth(WithScaleType(s, Some(a.scaleType)),
      a.borderWidth), Some(a.borderColors)), a.oval), a.tileModeX), a.tileModeY)
  }

  /** `updateAttrs` on one rounded drawable: on a radius error the other attributes are already set. */
  function Pushed(s: DrawableState, a: PushedAttrs): (DrawableState, Option<RadiusError>) {
    var s1 := WithPlainAttrs(s, a);
    match WithCornerRadii(s1, a.radii[0], a.radii[1], a.radii[2], a.radii[3])
    case Ok(s2) => (s2, None)
    case Err(e) => (s1, Some(e))
  }

  /** `updateAttrs` on a drawable tree: the layers in order, stopping at the first error. */
  function Updated(d: Drawable, a: PushedAttrs): (Drawable, Option<RadiusError>)
    decreases d, 1
  {
    match d
    case Rounded(s) =>
      var (s1, e) := Pushed(s, a);
      (Rounded(s1), e)
    case Layers(ls) =>
      var (out, e) := UpdatedLayers(ls, 0, a);
      (Layers(out), e)
    case Plain(_, _) => (d, None)
  }

  /** The layers from `i` on, after `updateAttrs`; the ones past a failing layer are untouched. */
  function UpdatedLayers(ls: seq<Drawable>, i: nat, a: PushedAttrs): (seq<Drawable>, Option<RadiusError>)
    requires i <= |ls|
    decreases Layers(ls), 0, |ls| - i
  {
    if i == |ls| then ([], None)
    else
      var (d1, e) := Updated(ls[i], a);
      if e.Some? then ([d1] + ls[i + 1..], e)
      else
        var (rest, e2) := UpdatedLayers(ls, i + 1, a);
        ([d1] + rest, e2)
  }

  /** `updateAttrs` on a nullable drawable, with the view's nullable tile modes. */
  function UpdatedOrNull(d: Option<Drawable>, a: Option<PushedAttrs>): (Option<Drawable>, Option<RadiusError>) {
    if d.None? || a.None? then (d, None)
    else
      var (d1, e) := Updated(d.value, a.value);
      (Some(d1), e)
  }

  /** The tree holds a rounded drawable. */
  predicate HasRounded(d: Drawable)
    decreases d
  {
    match d
    case Rounded(_) => true
    case Layers(ls) => exists k :: 0 <= k < |ls| && HasRounded(ls[k])
    case Plain(_, _) => false
  }

  /** A rounded drawable shows the pushed attributes, each corner its own radius slot. */
  predicate Reflects(s: DrawableState, a: PushedAttrs) {
    && s.scaleType == a.scaleType && s.borderWidth == a.borderWidth && s.borderColors == a.borderColors
    && s.oval == a.oval && s.tileModeX == a.tileModeX && s.tileModeY == a.tileModeY
    && forall c :: CornerRadiusOf(s, c) == a.radii[Ordinal(c)]
  }

  /** Every rounded drawable in the tree reflects the pushed attributes. */
  predicate AllReflect(d: Drawable, a: PushedAttrs)
    decreases d
  {
    match d
    case Rounded(s) => Reflects(s, a)
    case Layers(ls) => forall k :: 0 <= k < |ls| ==> AllReflect(ls[k], a)
    case Plain(_, _) => true
  }

  /**
   * On one rounded drawable the push fails exactly when the radius slots are
   * not acceptable; when it succeeds the drawable reflects the attributes.
   */
  lemma {:induction false} PushedMeaning(s: DrawableState, a: PushedAttrs)
    ensures Pushed(s, a).1.Some? <==> !AcceptableRadii(a.radii)
    ensures Pushed(s, a).1.None? ==> Reflects(Pushed(s, a).0, a)
  {
    var s1 := WithPlainAttrs(s, a);
    var r := a.radii;
    CornerRadiiOutcome(s1, r[0], r[1], r[2], r[3]);
    assert [r[0], r[1], r[2], r[3]] == r;
    if WithCornerRadii(s1, r[0], r[1], r[2], r[3]).Ok? {
      CornerRadiiRoundTrip(s1, r[0], r[1], r[2], r[3]);
    }
  }

  /** Pushing the same attributes twice is pushing them once, error or not. */
  lemma {:induction false} PushedIdempotent(s: DrawableState, a: PushedAttrs)
    ensures Pushed(Pushed(s, a).0, a) == Pushed(s, a)
  {
    var s1 := WithPlainAttrs(s, a);
    assert WithPlainAttrs(s1, a) == s1;
    var r := WithCornerRadii(s1, a.radii[0], a.radii[1], a.radii[2], a.radii[3]);
    if r.Ok? {
      assert WithPlainAttrs(r.value, a) == r.value;
    }
  }

  /**
   * `updateAttrs` on a tree fails exactly when the tree holds a rounded
   * drawable and the radius slots are not acceptable; when it succeeds,
   * every rounded drawable of the tree reflects the view's attributes.
   */
  lemma {:induction false} UpdatedMeaning(d: Drawable, a: PushedAttrs)
    ensures Updated(d, a).1.Some? <==> HasRounded(d) && !AcceptableRadii(a.radii)
    ensures Updated(d, a).1.None? ==> AllReflect(Updated(d, a).0, a)
    decreases d, 1
  {
    match d
    case Rounded(s) =>
      PushedMeaning(s, a);
    case Layers(ls) =>
      UpdatedLayersMeaning(ls, 0, a);
    case Plain(_, _) =>
  }

  lemma {:induction false} UpdatedLayersMeaning(ls: seq<Drawable>, i: nat, a: PushedAttrs)
    requires i <= |ls|
    ensures UpdatedLayers(ls, i, a).1.Some? <==>
      (exists k :: i <= k < |ls| && HasRounded(ls[k])) && !AcceptableRadii(a.radii)
    ensures UpdatedLayers(ls, i, a).1.None? ==>
      var out := UpdatedLayers(ls, i, a).0;
      |out| == |ls| - i && forall k :: 0 <= k < |out| ==> AllReflect(out[k], a)
    decreases Layers(ls), 0, |ls| - i
  {
    if i < |ls| {
      UpdatedMeaning(ls[i], a);
      var (d1, e) := Updated(ls[i], a);
      if e.None? {
        UpdatedLayersMeaning(ls, i + 1, a);
        var (rest, e2) := UpdatedLayers(ls, i + 1, a);
        if e2.None? {
          var out := [d1] + rest;
          assert forall k :: 1 <= k < |out| ==> out[k] == rest[k - 1];
        }
        if (exists k :: i <= k < |ls| && HasRounded(ls[k])) && !AcceptableRadii(a.radii) {
          var k :| i <= k < |ls| && HasRounded(ls[k]);
          assert k != i ==> i + 1 <= k;
        }
      }
    }
  }

  /** `UpdatedLayers` depends only on the layers from `i` on. */
  lemma {:induction false} UpdatedLayersSuffix(xs: seq<Drawable>, i: nat, ys: seq<Drawable>, j: nat, a: PushedAttrs)
    requires i <= |xs| && j <= |ys| && xs[i..] == ys[j..]
    ensures UpdatedLayers(xs, i, a) == UpdatedLayers(ys, j, a)
    decreases |xs| - i
  {
    if i < |xs| {
      assert xs[i] == xs[i..][0] == ys[j..][0] == ys[j];
      assert xs[i + 1..] == xs[i..][1..] == ys[j..][1..] == ys[j + 1..];
      UpdatedLayersSuffix(xs, i + 1, ys, j + 1, a);
    }
  }

  /**
   * Pushing the view's attributes into a tree twice gives the same tree and
   * outcome as pushing them once; so a drawable that appears in two layers
   * (the same object, updated twice in the source) ends as it would when
   * updated once.
   */
  lemma {:induction false} UpdatedIdempotent(d: Drawable, a: PushedAttrs)
    ensures Updated(Updated(d, a).0, a) == Updated(d, a)
    decreases d, 1
  {
    match d
    case Rounded(s) =>
      PushedIdempotent(s, a);
    case Layers(ls) =>
      UpdatedLayersIdempotent(ls, 0, a);
    case Plain(_, _) =>
  }

  lemma {:induction false} UpdatedLayersIdempotent(ls: seq<Drawable>, i: nat, a: PushedAttrs)
    requires i <= |ls|
    ensures UpdatedLayers(UpdatedLayers(ls, i, a).0, 0, a) == UpdatedLayers(ls, i, a)
    decreases Layers(ls), 0, |ls| - i
  {
    if i < |ls| {
      UpdatedIdempotent(ls[i], a);
      var (d1, e) := Updated(ls[i], a);
      var out := UpdatedLayers(ls, i, a).0;
      assert out[0] == d1;
      if e.Some? {
        assert out == [d1] + ls[i + 1..];
        UpdatedLayersSuffix(out, 1, ls, i + 1, a);
      } else {
        var rest := UpdatedLayers(ls, i + 1, a).0;
        assert out == [d1] + rest;
        assert out[1..] == rest;
        UpdatedLayersSuffix(out, 1, rest, 0, a);
        UpdatedLayersIdempotent(ls, i + 1, a);
      }
    }
  }

  // ---------------------------------------------------------------------
  // The view's operations on its state
  // ---------------------------------------------------------------------

  /** `updateDrawableAttrs`. */
  function WithDrawableAttrs(v: ImageViewState): (ImageViewState, Option<RadiusError>) {
    var (d, e) := UpdatedOrNull(v.drawable, AttrsOf(v));
    (v.(drawable := d), e)
  }

  /** `updateBackgroundDrawableAttrs(convert)`. */
  function WithBackgroundAttrs(v: ImageViewState, convert: bool): (ImageViewState, Option<RadiusError>) {
    if !v.mutateBackground then (v, None)
    else
      var background := if convert then ConvertedOrNull(v.backgroundDrawable) else v.backgroundDrawable;
      var (b, e) := UpdatedOrNull(background, AttrsOf(v));
      (v.(backgroundDrawable := b), e)
  }

  /** `updateDrawableAttrs(); updateBackgroundDrawableAttrs(false)`: an error stops the second. */
  function Refreshed(v: ImageViewState): (ImageViewState, Option<RadiusError>) {
    var (v1, e) := WithDrawableAttrs(v);
    if e.Some? then (v1, e) else WithBackgroundAttrs(v1, false)
  }

  /** `setScaleType`. */
  function ViewWithScaleType(v: ImageViewState, t: ScaleType): (ImageViewState, Option<RadiusError>) {
    if v.scaleType != t then Refreshed(v.(scaleType := t, platformScaleType := Some(PlatformScaleType(t))))
    else (v, None)
  }

  /** `setImageDrawable`. */
  function ViewWithImageDrawable(v: ImageViewState, d: Option<Drawable>): (ImageViewState, Option<RadiusError>) {
    WithDrawableAttrs(v.(resource := 0, drawable := ConvertedOrNull(d)))
  }

  /** `setImageBitmap`. */
  function ViewWithImageBitmap(v: ImageViewState, bitmap: Bitmap): (ImageViewState, Option<RadiusError>) {
    WithDrawableAttrs(v.(resource := 0, drawable := Some(Rounded(Initial(bitmap)))))
  }

  /**
   * `setImageResource(resId)`, with `lookup` standing for
   * `resources.getDrawable` (`None`: the lookup threw, and the resource id
   * is reset to 0 so that it is not tried again).
   */
  function ViewWithImageResource(v: ImageViewState, resId: Int32, lookup: Int32 -> Option<Drawable>)
    : (ImageViewState, Option<RadiusError>)
  {
    if v.resource == resId then (v, None)
    else
      var found := if resId != 0 then lookup(resId) else None;
      var resource := if resId != 0 && found.None? then 0 else resId;
      WithDrawableAttrs(v.(resource := resource, drawable := ConvertedOrNull(found)))
  }

  /** The early-return test of the four-argument setter: each corner's slot already `==` its argument. */
  predicate HoldsSlots(slots: Radii, topLeft: Float, topRight: Float, bottomLeft: Float, bottomRight: Float) {
    FEq(slots[Ordinal(TopLeft)], topLeft) && FEq(slots[Ordinal(TopRight)], topRight)
    && FEq(slots[Ordinal(BottomRight)], bottomRight) && FEq(slots[Ordinal(BottomLeft)], bottomLeft)
  }

  /**
   * The source's `setCornerRadius(topLeft, topRight, bottomLeft, bottomRight)`
   * as written: the guard compares slot BOTTOM_RIGHT with `bottomRight` and
   * slot BOTTOM_LEFT with `bottomLeft`, but the stores put `bottomLeft` in
   * slot 2 (BOTTOM_RIGHT) and `bottomRight` in slot 3 (BOTTOM_LEFT).
   * `None` is the early return.
   */
  function CornerSlotsAsWritten(slots: Radii, topLeft: Float, topRight: Float, bottomLeft: Float, bottomRight: Float)
    : Option<Radii>
  {
    if HoldsSlots(slots, topLeft, topRight, bottomLeft, bottomRight) then None
    else
      var stored: Radii := [topLeft, topRight, bottomLeft, bottomRight];
      Some(stored)
  }

  /** The same setter with each argument stored in its own corner's slot, as the guard and the names say. */
  function CornerSlots(slots: Radii, topLeft: Float, topRight: Float, bottomLeft: Float, bottomRight: Float)
    : Option<Radii>
  {
    if HoldsSlots(slots, topLeft, topRight, bottomLeft, bottomRight) then None
    else Some(SlotsOf(topLeft, topRight, bottomLeft, bottomRight))
  }

  /** The arguments as slots, in corner order. */
  function SlotsOf(topLeft: Float, topRight: Float, bottomLeft: Float, bottomRight: Float): Radii {
    [topLeft, topRight, bottomRight, bottomLeft]
  }

  /**
   * The corrected setter returns early only when the slots already hold the
   * arguments, and exactly then when no slot is NaN; otherwise each corner's
   * slot receives the argument named after it.
   */
  lemma CornerSlotsMeaning(slots: Radii, topLeft: Float, topRight: Float, bottomLeft: Float, bottomRight: Float)
    ensures CornerSlots(slots, topLeft, topRight, bottomLeft, bottomRight).None? ==>
      slots == SlotsOf(topLeft, topRight, bottomLeft, bottomRight)
    ensures (forall k :: 0 <= k < 4 ==> slots[k] != NaN) ==>
      (CornerSlots(slots, topLeft, topRight, bottomLeft, bottomRight).None? <==>
       slots == SlotsOf(topLeft, topRight, bottomLeft, bottomRight))
    ensures CornerSlots(slots, topLeft, topRight, bottomLeft, bottomRight).Some? ==>
      var n := CornerSlots(slots, topLeft, topRight, bottomLeft, bottomRight).value;
      && n[Ordinal(TopLeft)] == topLeft && n[Ordinal(TopRight)] == topRight
      && n[Ordinal(BottomLeft)] == bottomLeft && n[Ordinal(BottomRight)] == bottomRight
  {
    if HoldsSlots(slots, topLeft, topRight, bottomLeft, bottomRight) {
      HeldSlotsAreArguments(slots, topLeft, topRight, bottomLeft, bottomRight);
    }
    if slots == SlotsOf(topLeft, topRight, bottomLeft, bottomRight) && forall k :: 0 <= k < 4 ==> slots[k] != NaN {
      ArgumentSlotsAreHeld(slots, topLeft, topRight, bottomLeft, bottomRight);
    }
  }

  /** Slots that pass the test hold the arguments. */
  lemma HeldSlotsAreArguments(slots: Radii, topLeft: Float, topRight: Float, bottomLeft: Float, bottomRight: Float)
    requires HoldsSlots(slots, topLeft, topRight, bottomLeft, bottomRight)
    ensures slots == SlotsOf(topLeft, topRight, bottomLeft, bottomRight)
  {
    FEqIsEquals(slots[0], topLeft);
    FEqIsEquals(slots[1], topRight);
    FEqIsEquals(slots[2], bottomRight);
    FEqIsEquals(slots[3], bottomLeft);
    assert slots == [slots[0], slots[1], slots[2], slots[3]];
  }

  /** Slots that hold the arguments and no NaN pass the test. */
  lemma ArgumentSlotsAreHeld(slots: Radii, topLeft: Float, topRight: Float, bottomLeft: Float, bottomRight: Float)
    requires slots == SlotsOf(topLeft, topRight, bottomLeft, bottomRight)
    requires forall k :: 0 <= k < 4 ==> slots[k] != NaN
    ensures HoldsSlots(slots, topLeft, topRight, bottomLeft, bottomRight)
  {
    FEqIsEquals(slots[0], topLeft);
    FEqIsEquals(slots[1], topRight);
    FEqIsEquals(slots[2], bottomRight);
    FEqIsEquals(slots[3], bottomLeft);
  }

  /**
   * As written, the setter skips a call that would change the slots (slots
   * 0, 0, 5, 0 and the call `(0, 0, 0, 5)`: it returns early, though its
   * stores would give 0, 0, 0, 5), and `bottomLeft` lands in the
   * bottom-right slot. The two agree whenever `bottomLeft == bottomRight`,
   * which covers `setCornerRadius(radius)` and `setCornerRadiusDimen`.
   */
  lemma CornerSlotsAsWrittenDiffers(slots: Radii, topLeft: Float, topRight: Float, bottomLeft: Float, bottomRight: Float,
                                    bottom: Float)
    ensures CornerSlotsAsWritten(slots, topLeft, topRight, bottomLeft, bottomRight).Some? ==>
      var n := CornerSlotsAsWritten(slots, topLeft, topRight, bottomLeft, bottomRight).value;
      && n[Ordinal(TopLeft)] == topLeft && n[Ordinal(TopRight)] == topRight
      && n[Ordinal(BottomRight)] == bottomLeft && n[Ordinal(BottomLeft)] == bottomRight
    ensures CornerSlotsAsWritten([ZERO, ZERO, Num(5.0), ZERO], ZERO, ZERO, ZERO, Num(5.0)).None?
    ensures CornerSlotsAsWritten([ZERO, ZERO, ZERO, ZERO], ZERO, ZERO, Num(5.0), ZERO).value[Ordinal(BottomLeft)] == ZERO
    ensures CornerSlotsAsWritten(slots, topLeft, topRight, bottom, bottom) == CornerSlots(slots, topLeft, topRight, bottom, bottom)
  {
  }

  /** `setCornerRadius(topLeft, topRight, bottomLeft, bottomRight)`, corrected. */
  function ViewWithCornerRadii(v: ImageViewState, topLeft: Float, topRight: Float, bottomLeft: Float, bottomRight: Float)
    : (ImageViewState, Option<RadiusError>)
  {
    match CornerSlots(v.cornerRadii, topLeft, topRight, bottomLeft, bottomRight)
    case None => (v, None)
    case Some(slots) => Refreshed(v.(cornerRadii := slots))
  }

  /** `setBorderWidth(width)`. */
  function ViewWithBorderWidth(v: ImageViewState, width: Float): (ImageViewState, Option<RadiusError>) {
    if FEq(v.borderWidth, width) then (v, None) else Refreshed(v.(borderWidth := width))
  }

  /** `setBorderColor(colors)`: null becomes black. */
  function ViewWithBorderColor(v: ImageViewState, colors: Option<ColorStateList>): (ImageViewState, Option<RadiusError>) {
    if colors == Some(v.borderColors) then (v, None)
    else Refreshed(v.(borderColors := colors.GetOr(ValueOf(BLACK))))
  }

  /** The `isOval` setter, which has no change check. */
  function ViewWithOval(v: ImageViewState, oval: bool): (ImageViewState, Option<RadiusError>) {
    Refreshed(v.(isOval := oval))
  }

  /** `mutateBackground(mutate)`. */
  function ViewWithMutateBackground(v: ImageViewState, mutate: bool): (ImageViewState, Option<RadiusError>) {
    if v.mutateBackground == mutate then (v, None)
    else WithBackgroundAttrs(v.(mutateBackground := mutate), true)
  }

  /**
   * End to end: when `setCornerRadius(topLeft, topRight, bottomLeft,
   * bottomRight)` changes the slots of a view showing a rounded drawable
   * and does not throw, the drawable's corners report exactly the arguments
   * named after them; it throws exactly when the slots are not acceptable.
   */
  lemma ViewCornerRadiiReachDrawable(v: ImageViewState, s: DrawableState,
                                     topLeft: Float, topRight: Float, bottomLeft: Float, bottomRight: Float)
    requires v.drawable == Some(Rounded(s)) && v.backgroundDrawable.None? && AttrsOf(v).Some?
    requires CornerSlots(v.cornerRadii, topLeft, topRight, bottomLeft, bottomRight).Some?
    ensures var (after, e) := ViewWithCornerRadii(v, topLeft, topRight, bottomLeft, bottomRight);
      && (e.Some? <==> !AcceptableRadii(SlotsOf(topLeft, topRight, bottomLeft, bottomRight)))
      && (e.None? ==> after.drawable.Some? && after.drawable.value.Rounded?)
      && (e.None? ==>
            var t := after.drawable.value.state;
            && CornerRadiusOf(t, TopLeft) == topLeft && CornerRadiusOf(t, TopRight) == topRight
            && CornerRadiusOf(t, BottomLeft) == bottomLeft && CornerRadiusOf(t, BottomRight) == bottomRight)
  {
    var slots := SlotsOf(topLeft, topRight, bottomLeft, bottomRight);
    var v1 := v.(cornerRadii := slots);
    assert ViewWithCornerRadii(v, topLeft, topRight, bottomLeft, bottomRight) == Refreshed(v1);
    var a := AttrsOf(v1).value;
    assert a.radii == slots;
    RefreshedRounded(v1, s);
    PushedMeaning(s, a);
  }

  /**
   * End to end: a new scale type on a view showing a rounded drawable is
   * handed to the platform view as MATRIX or FIT_XY and reaches the
   * drawable itself, which does its own scaling, whether or not the radius
   * slots then throw; setting the same type again changes nothing.
   */
  lemma ScaleTypeReachesDrawable(v: ImageViewState, s: DrawableState, t: ScaleType)
    requires v.drawable == Some(Rounded(s)) && v.backgroundDrawable.None? && AttrsOf(v).Some?
    requires v.scaleType != t
    ensures var (after, e) := ViewWithScaleType(v, t);
      && after.scaleType == t
      && after.platformScaleType == Some(if t == Matrix then Matrix else FitXY)
      && (e.Some? <==> !AcceptableRadii(v.cornerRadii))
      && after.drawable.Some? && after.drawable.value.Rounded?
      && after.drawable.value.state.scaleType == t
      && ViewWithScaleType(after, t) == (after, None)
  {
    var v1 := v.(scaleType := t, platformScaleType := Some(PlatformScaleType(t)));
    var a := AttrsOf(v1).value;
    RefreshedRounded(v1, s);
    PushedMeaning(s, a);
    assert WithPlainAttrs(s, a).scaleType == t;
  }

  /** Refreshing a view that shows one rounded drawable and has no background pushes its attributes into it. */
  lemma RefreshedRounded(v: ImageViewState, s: DrawableState)
    requires v.drawable == Some(Rounded(s)) && v.backgroundDrawable.None? && AttrsOf(v).Some?
    ensures var (t, e) := Pushed(s, AttrsOf(v).value);
      Refreshed(v) == (v.(drawable := Some(Rounded(t))), e)
  {
    var (t, e) := Pushed(s, AttrsOf(v).value);
    var v1 := v.(drawable := Some(Rounded(t)));
    assert WithDrawableAttrs(v) == (v1, e);
    assert WithBackgroundAttrs(v1, false) == (v1, None);
  }

  /** The view's getter `cornerRadius`: the first positive slot in slot order, else 0. */
  function FirstPositive(xs: seq<Float>): Float
    decreases |xs|
  {
    if xs == [] then ZERO
    else if Positive(xs[0]) then xs[0]
    else FirstPositive(xs[1..])
  }

  /**
   * The getter reports 0 exactly when no slot is positive, and otherwise
   * the earliest positive slot; after the uniform setter stored `r` it gives
   * `r` back when `r` is positive.
   */
  lemma {:induction false} FirstPositiveMeaning(xs: seq<Float>)
    ensures FirstPositive(xs) == ZERO <==> forall k :: 0 <= k < |xs| ==> !Positive(xs[k])
    ensures FirstPositive(xs) != ZERO ==>
      exists k :: 0 <= k < |xs| && xs[k] == FirstPositive(xs) && Positive(xs[k]) &&
        forall j :: 0 <= j < k ==> !Positive(xs[j])
    decreases |xs|
  {
    if xs != [] && !Positive(xs[0]) {
      FirstPositiveMeaning(xs[1..]);
      if FirstPositive(xs) != ZERO {
        var k :| 0 <= k < |xs[1..]| && xs[1..][k] == FirstPositive(xs[1..]) && Positive(xs[1..][k]) &&
          forall j :: 0 <= j < k ==> !Positive(xs[1..][j]);
        assert xs[k + 1] == xs[1..][k];
        forall j | 0 <= j < k + 1
          ensures !Positive(xs[j])
        {
          if j > 0 {
            assert xs[j] == xs[1..][j - 1];
          }
        }
      }
      if forall k :: 0 <= k < |xs[1..]| ==> !Positive(xs[1..][k]) {
        forall k | 0 <= k < |xs|
          ensures !Positive(xs[k])
        {
          if k > 0 {
            assert xs[k] == xs[1..][k - 1];
          }
        }
      }
    }
  }

  lemma UniformRadiusGetter(r: Float)
    ensures FirstPositive([r, r, r, r]) == if Positive(r) then r else ZERO
  {
    FirstPositiveMeaning([r, r, r, r]);
  }

  /** With no drawable and no background, refreshing changes nothing. */
  lemma NothingToRefresh(v: ImageViewState)
    requires v.drawable.None? && v.backgroundDrawable.None?
    ensures WithDrawableAttrs(v) == (v, None) && Refreshed(v) == (v, None)
    ensures WithBackgroundAttrs(v, true) == (v, None) && WithBackgroundAttrs(v, false) == (v, None)
  {
  }

  // ---------------------------------------------------------------------
  // The class
  // ---------------------------------------------------------------------

  class RoundedImageView {
    /** [topLeft, topRight, bottomRight, bottomLeft], indexed by `Ordinal`. */
    const cornerRadii: array<Float>
    var borderColors: ColorStateList
    var borderWidth: Float
    var isOval: bool
    var mutateBackground: bool
    var resource: Int32
    var scaleType: ScaleType
    var platformScaleType: Option<ScaleType>
    var tileModeX: Option<TileMode>
    var tileModeY: Option<TileMode>
    var drawable: Option<Drawable>
    var backgroundDrawable: Option<Drawable>

    /** Four slots; the background drawable is never assigned anything but null. */
    ghost predicate Valid()
      reads this
    {
      cornerRadii.Length == 4 && backgroundDrawable.None?
    }

    ghost function State(): ImageViewState
      requires Valid()
      reads this, cornerRadii
    {
      ImageViewState(cornerRadii[..], borderColors, borderWidth, isOval, mutateBackground, resource, scaleType,
                     platformScaleType, tileModeX, tileModeY, drawable, backgroundDrawable)
    }

    /** `RoundedImageView(context)`. */
    constructor ()
      ensures Valid() && fresh(cornerRadii)
      ensures State() == DefaultState()
    {
      cornerRadii := new Float[4](_ => ZERO);
      borderColors := ValueOf(BLACK);
      borderWidth := ZERO;
      isOval := false;
      mutateBackground := false;
      resource := 0;
      scaleType := FitCenter;
      platformScaleType := None;
      tileModeX := Some(Clamp);
      tileModeY := Some(Clamp);
      drawable := None;
      backgroundDrawable := None;
      new;
      assert cornerRadii[..] == [ZERO, ZERO, ZERO, ZERO];
    }

    /** `RoundedImageView(context, attrs, defStyle)`, for attributes whose scale-type index is in bounds. */
    constructor Inflated(attrs: Attributes)
      requires attrs.scaleType < 8
      ensures Valid() && fresh(cornerRadii)
      ensures State() == InflatedState(attrs).value
    {
      cornerRadii := new Float[4](_ => ZERO);
      borderColors := ValueOf(BLACK);
      borderWidth := ZERO;
      isOval := false;
      mutateBackground := false;
      resource := 0;
      scaleType := FitCenter;
      platformScaleType := None;
      tileModeX := Some(Clamp);
      tileModeY := Some(Clamp);
      drawable := None;
      backgroundDrawable := None;
      new;
      assert cornerRadii[..] == [ZERO, ZERO, ZERO, ZERO];
      ApplyAttributes(attrs);
    }

    /** The body of the attribute constructor, run on a freshly initialised view. */
    method ApplyAttributes(attrs: Attributes)
      requires Valid() && State() == DefaultState() && attrs.scaleType < 8
      modifies this, cornerRadii
      ensures Valid() && State() == InflatedState(attrs).value
    {
      var t := if attrs.scaleType >= 0 then SCALE_TYPES[attrs.scaleType] else FitCenter;
      ghost var v0 := State();
      ghost var v1 := v0.(scaleType := t, platformScaleType := if t != FitCenter then Some(PlatformScaleType(t)) else None);
      NothingToRefresh(v1);
      assert ViewWithScaleType(v0, t) == (v1, None);
      var ignored := SetScaleType(t);
      assert State() == v1;
      NormaliseCornerRadii(attrs);
      ghost var v2 := v1.(cornerRadii := NormalisedRadii(attrs));
      assert State() == v2;
      ApplyStrokeAndFlags(attrs);
      ghost var v3 := State();
      assert v3 == InflatedState(attrs).value;
      NothingToRefresh(v3);
      ignored := UpdateDrawableAttrs();
      assert State() == v3;
      ignored := UpdateBackgroundDrawableAttrs(true);
    }

    /** The stroke and flag part of the attribute constructor. */
    method ApplyStrokeAndFlags(attrs: Attributes)
      requires Valid()
      modifies this`borderWidth, this`borderColors, this`mutateBackground, this`isOval
      ensures Valid()
      ensures State() == old(State()).(borderWidth := if attrs.strokeWidth < 0 then ZERO else FromInt(attrs.strokeWidth),
                                      borderColors := attrs.strokeColor.GetOr(ValueOf(BLACK)),
                                      mutateBackground := attrs.mutateBackground, isOval := attrs.isOval)
    {
      borderWidth := FromInt(attrs.strokeWidth);
      if Negative(borderWidth) {
        borderWidth := ZERO;
      }
      borderColors := if attrs.strokeColor.Some? then attrs.strokeColor.value else ValueOf(BLACK);
      mutateBackground := attrs.mutateBackground;
      isOval := attrs.isOval;
    }

    /** The corner-radius part of the attribute constructor. */
    method NormaliseCornerRadii(attrs: Attributes)
      requires cornerRadii.Length == 4
      modifies cornerRadii
      ensures cornerRadii[..] == NormalisedRadii(attrs)
    {
      var cornerRadiusOverride := FromInt(attrs.cornerRadius);
      var stated := CornerAttributes(attrs);
      var any := ClampStatedRadii(stated);
      if !any {
        if Negative(cornerRadiusOverride) {
          cornerRadiusOverride := ZERO;
        }
        FillCornerRadii(cornerRadiusOverride);
      }
    }

    /** The per-corner attributes stored in corner order, negatives made 0; whether any was given. */
    method ClampStatedRadii(stated: seq<Int32>) returns (any: bool)
      requires cornerRadii.Length == 4 && |stated| == 4
      modifies cornerRadii
      ensures any <==> exists k :: 0 <= k < 4 && stated[k] >= 0
      ensures forall k :: 0 <= k < 4 ==> cornerRadii[k] == ClampedRadius(FromInt(stated[k]))
    {
      cornerRadii[Ordinal(TopLeft)] := FromInt(stated[0]);
      cornerRadii[Ordinal(TopRight)] := FromInt(stated[1]);
      cornerRadii[Ordinal(BottomRight)] := FromInt(stated[2]);
      cornerRadii[Ordinal(BottomLeft)] := FromInt(stated[3]);
      any := false;
      var i := 0;
      while i < 4
        invariant 0 <= i <= 4
        invariant forall k :: 0 <= k < i ==> cornerRadii[k] == ClampedRadius(FromInt(stated[k]))
        invariant forall k :: i <= k < 4 ==> cornerRadii[k] == FromInt(stated[k])
        invariant any <==> exists k :: 0 <= k < i && stated[k] >= 0
      {
        if Negative(cornerRadii[i]) {
          cornerRadii[i] := ZERO;
        } else {
          any := true;
        }
        i := i + 1;
      }
    }

    /** Every slot set to `r`. */
    method FillCornerRadii(r: Float)
      requires cornerRadii.Length == 4
      modifies cornerRadii
      ensures cornerRadii[..] == [r, r, r, r]
    {
      var i := 0;
      while i < 4
        invariant 0 <= i <= 4
        invariant forall k :: 0 <= k < i ==> cornerRadii[k] == r
      {
        cornerRadii[i] := r;
        i := i + 1;
      }
    }

    /** `updateAttrs(drawable)`: the updated tree, and the error that stopped it if any. */
    method UpdateAttrs(d: Option<Drawable>) returns (r: Option<Drawable>, err: Option<RadiusError>)
      requires Valid()
      ensures (r, err) == UpdatedOrNull(d, AttrsOf(State()))
    {
      if d.None? || tileModeX.None? || tileModeY.None? {
        return d, None;
      }
      var a := PushedAttrs(scaleType, borderWidth, borderColors, isOval, tileModeX.value, tileModeY.value, cornerRadii[..]);
      var tree;
      tree, err := UpdateTree(d.value, a);
      r := Some(tree);
    }

    /** `updateDrawableAttrs`. */
    method UpdateDrawableAttrs() returns (err: Option<RadiusError>)
      requires Valid()
      modifies this`drawable
      ensures Valid() && (State(), err) == WithDrawableAttrs(old(State()))
    {
      var d;
      d, err := UpdateAttrs(drawable);
      drawable := d;
    }

    /** `updateBackgroundDrawableAttrs(convert)`. */
    method UpdateBackgroundDrawableAttrs(convert: bool) returns (err: Option<RadiusError>)
      requires Valid()
      modifies this`backgroundDrawable
      ensures Valid() && (State(), err) == WithBackgroundAttrs(old(State()), convert)
    {
      err := None;
      if mutateBackground {
        var background := backgroundDrawable;
        if convert {
          background := FromDrawable(backgroundDrawable);
        }
        var b;
        b, err := UpdateAttrs(background);
        backgroundDrawable := b;
      }
    }

    /** `updateDrawableAttrs(); updateBackgroundDrawableAttrs(false)`. */
    method Refresh() returns (err: Option<RadiusError>)
      requires Valid()
      modifies this`drawable, this`backgroundDrawable
      ensures Valid() && (State(), err) == Refreshed(old(State()))
    {
      err := UpdateDrawableAttrs();
      if err.Some? {
        return;
      }
      err := UpdateBackgroundDrawableAttrs(false);
    }

    /** `setScaleType`. */
    method SetScaleType(t: ScaleType) returns (err: Option<RadiusError>)
      requires Valid()
      modifies this
      ensures Valid() && (State(), err) == ViewWithScaleType(old(State()), t)
    {
      err := None;
      if scaleType != t {
        ghost var v0 := State();
        scaleType := t;
        platformScaleType := Some(if t == Matrix then Matrix else FitXY);
        assert State() == v0.(scaleType := t, platformScaleType := Some(PlatformScaleType(t)));
        err := Refresh();
      }
    }

    /** `setImageDrawable`. */
    method SetImageDrawable(d: Option<Drawable>) returns (err: Option<RadiusError>)
      requires Valid()
      modifies this
      ensures Valid() && (State(), err) == ViewWithImageDrawable(old(State()), d)
    {
      resource := 0;
      drawable := FromDrawable(d);
      err := UpdateDrawableAttrs();
    }

    /** `setImageBitmap`. */
    method SetImageBitmap(bitmap: Bitmap) returns (err: Option<RadiusError>)
      requires Valid()
      modifies this
      ensures Valid() && (State(), err) == ViewWithImageBitmap(old(State()), bitmap)
    {
      resource := 0;
      drawable := Some(Rounded(Initial(bitmap)));
      err := UpdateDrawableAttrs();
    }

    /** `setImageResource`, with the resource lookup as a parameter. */
    method SetImageResource(resId: Int32, lookup: Int32 -> Option<Drawable>) returns (err: Option<RadiusError>)
      requires Valid()
      modifies this
      ensures Valid() && (State(), err) == ViewWithImageResource(old(State()), resId, lookup)
    {
      err := None;
      if resource != resId {
        resource := resId;
        var found := ResolveResource(lookup);
        drawable := found;
        err := UpdateDrawableAttrs();
      }
    }

    /** `resolveResource`: a failed lookup resets the resource id. */
    method ResolveResource(lookup: Int32 -> Option<Drawable>) returns (d: Option<Drawable>)
      requires Valid()
      modifies this`resource
      ensures Valid()
      ensures var found := if old(resource) != 0 then lookup(old(resource)) else None;
        && d == ConvertedOrNull(found)
        && resource == if old(resource) != 0 && found.None? then 0 else old(resource)
    {
      var found := None;
      if resource != 0 {
        found := lookup(resource);
        if found.None? {
          resource := 0;
        }
      }
      d := FromDrawable(found);
    }

    /** The getter `cornerRadius`. */
    method GetCornerRadius() returns (r: Float)
      requires Valid()
      ensures r == FirstPositive(State().cornerRadii)
    {
      for i := 0 to 4
        invariant FirstPositive(cornerRadii[..]) == FirstPositive(cornerRadii[i..])
      {
        if Positive(cornerRadii[i]) {
          return cornerRadii[i];
        }
        assert cornerRadii[i..][1..] == cornerRadii[i + 1..];
      }
      return ZERO;
    }

    /** The early-return test of `setCornerRadius(topLeft, topRight, bottomLeft, bottomRight)`. */
    method HoldsCornerRadii(topLeft: Float, topRight: Float, bottomLeft: Float, bottomRight: Float) returns (holds: bool)
      requires Valid()
      ensures holds <==> CornerSlots(State().cornerRadii, topLeft, topRight, bottomLeft, bottomRight).None?
    {
      var slots := cornerRadii[..];
      assert slots == State().cornerRadii;
      holds := HoldsSlots(slots, topLeft, topRight, bottomLeft, bottomRight);
    }

    /** The stores of `setCornerRadius(topLeft, topRight, bottomLeft, bottomRight)`, each argument in its own corner's slot. */
    method StoreCornerRadii(topLeft: Float, topRight: Float, bottomLeft: Float, bottomRight: Float)
      requires Valid()
      modifies cornerRadii
      ensures Valid() && cornerRadii[..] == SlotsOf(topLeft, topRight, bottomLeft, bottomRight)
    {
      cornerRadii[Ordinal(TopLeft)] := topLeft;
      cornerRadii[Ordinal(TopRight)] := topRight;
      cornerRadii[Ordinal(BottomRight)] := bottomRight;
      cornerRadii[Ordinal(BottomLeft)] := bottomLeft;
    }

    /** `setCornerRadius(topLeft, topRight, bottomLeft, bottomRight)`, each argument stored in its own corner's slot. */
    method SetCornerRadii(topLeft: Float, topRight: Float, bottomLeft: Float, bottomRight: Float)
      returns (err: Option<RadiusError>)
      requires Valid()
      modifies this, cornerRadii
      ensures Valid() && (State(), err) == ViewWithCornerRadii(old(State()), topLeft, topRight, bottomLeft, bottomRight)
    {
      ghost var before := State();
      var holds := HoldsCornerRadii(topLeft, topRight, bottomLeft, bottomRight);
      if holds {
        return None;
      }
      StoreCornerRadii(topLeft, topRight, bottomLeft, bottomRight);
      ghost var stored := before.(cornerRadii := SlotsOf(topLeft, topRight, bottomLeft, bottomRight));
      assert State() == stored;
      assert ViewWithCornerRadii(before, topLeft, topRight, bottomLeft, bottomRight) == Refreshed(stored);
      err := Refresh();
    }

    /** The setter `cornerRadius = radius`. */
    method SetCornerRadius(radius: Float) returns (err: Option<RadiusError>)
      requires Valid()
      modifies this, cornerRadii
      ensures Valid() && (State(), err) == ViewWithCornerRadii(old(State()), radius, radius, radius, radius)
    {
      err := SetCornerRadii(radius, radius, radius, radius);
    }

    /** `setBorderWidth(width)`. */
    method SetBorderWidth(width: Float) returns (err: Option<RadiusError>)
      requires Valid()
      modifies this
      ensures Valid() && (State(), err) == ViewWithBorderWidth(old(State()), width)
    {
      if FEq(borderWidth, width) {
        return None;
      }
      borderWidth := width;
      err := Refresh();
    }

    /** `setBorderColor(colors)`. */
    method SetBorderColor(colors: Option<ColorStateList>) returns (err: Option<RadiusError>)
      requires Valid()
      modifies this
      ensures Valid() && (State(), err) == ViewWithBorderColor(old(State()), colors)
    {
      if colors == Some(borderColors) {
        return None;
      }
      borderColors := if colors.Some? then colors.value else ValueOf(BLACK);
      err := Refresh();
    }

    /** The setter `borderColor = color`. */
    method SetBorderColorInt(color: Int32) returns (err: Option<RadiusError>)
      requires Valid()
      modifies this
      ensures Valid() && (State(), err) == ViewWithBorderColor(old(State()), Some(ValueOf(color)))
    {
      err := SetBorderColor(Some(ValueOf(color)));
    }

    /** The setter `isOval = oval`. */
    method SetOval(oval: bool) returns (err: Option<RadiusError>)
      requires Valid()
      modifies this
      ensures Valid() && (State(), err) == ViewWithOval(old(State()), oval)
    {
      isOval := oval;
      err := Refresh();
    }

    /** `mutateBackground(mutate)`. */
    method MutateBackground(mutate: bool) returns (err: Option<RadiusError>)
      requires Valid()
      modifies this
      ensures Valid() && (State(), err) == ViewWithMutateBackground(old(State()), mutate)
    {
      if mutateBackground == mutate {
        return None;
      }
      mutateBackground := mutate;
      err := UpdateBackgroundDrawableAttrs(true);
    }
  }

  /** The body of `updateAttrs` on one rounded drawable: the chained setters, then the radii. */
  method PushAttrs(s: DrawableState, a: PushedAttrs) returns (r: DrawableState, err: Option<RadiusError>)
    ensures (r, err) == Pushed(s, a)
  {
    r := WithScaleType(s, Some(a.scaleType));
    r := WithBorderWidth(r, a.borderWidth);
    r := WithBorderColors(r, Some(a.borderColors));
    r := WithOval(r, a.oval);
    r := WithTileModeX(r, a.tileModeX);
    r := WithTileModeY(r, a.tileModeY);
    var result := WithCornerRadii(r, a.radii[0], a.radii[1], a.radii[2], a.radii[3]);
    if result.Err? {
      return r, Some(result.error);
    }
    return result.value, None;
  }

  /** The body of `updateAttrs` on a non-null drawable. */
  method UpdateTree(d: Drawable, a: PushedAttrs) returns (r: Drawable, err: Option<RadiusError>)
    ensures (r, err) == Updated(d, a)
    decreases d, 1
  {
    match d
    case Rounded(s) =>
      var s1;
      s1, err := PushAttrs(s, a);
      r := Rounded(s1);
    case Layers(ls) =>
      var layers;
      layers, err := UpdateLayers(ls, a);
      r := Layers(layers);
    case Plain(_, _) =>
      r, err := d, None;
  }

  /** The loop of `updateAttrs` over the layers of a layer drawable; an error leaves the loop. */
  method UpdateLayers(ls: seq<Drawable>, a: PushedAttrs) returns (r: seq<Drawable>, err: Option<RadiusError>)
    ensures (r, err) == UpdatedLayers(ls, 0, a)
    decreases Layers(ls), 0
  {
    var done: seq<Drawable> := [];
    var i := 0;
    assert done + UpdatedLayers(ls, 0, a).0 == UpdatedLayers(ls, 0, a).0;
    while i < |ls|
      invariant 0 <= i <= |ls| && |done| == i
      invariant UpdatedLayers(ls, 0, a) == (done + UpdatedLayers(ls, i, a).0, UpdatedLayers(ls, i, a).1)
    {
      var layer, e := UpdateTree(ls[i], a);
      if e.Some? {
        assert done + ([layer] + ls[i + 1..]) == (done + [layer]) + ls[i + 1..];
        return done + [layer] + ls[i + 1..], e;
      }
      assert done + ([layer] + UpdatedLayers(ls, i + 1, a).0) == (done + [layer]) + UpdatedLayers(ls, i + 1, a).0;
      done := done + [layer];
      i := i + 1;
    }
    assert done == done + UpdatedLayers(ls, i, a).0;
    return done, None;
  }

  /** `RoundedImageView(context, attrs)`: `None` where `SCALE_TYPES[index]` throws. */
  method Inflate(attrs: Attributes) returns (view: Option<RoundedImageView>)
    ensures view.None? <==> InflatedState(attrs).None?
    ensures view.Some? ==> fresh(view.value) && view.value.Valid() && view.value.State() == InflatedState(attrs).value
  {
    if attrs.scaleType >= 8 {
      return None;
    }
    var v := new RoundedImageView.Inflated(attrs);
    return Some(v);
  }
}
