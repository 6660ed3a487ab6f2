/**
 * `RoundViewDelegate`: the attributes a delegating view keeps (colours,
 * radii, stroke, the half-size flags) and the background it rebuilds from
 * them after every change — a ripple over a gradient shape, or a state list
 * with an unpressed and possibly a pressed gradient shape — plus the
 * pressed text colours of a text view.
 */
module RoundViewDelegates {
  import opened Graphics

  /** `Build.VERSION_CODES.LOLLIPOP`, from which on the ripple background exists. */
  const LOLLIPOP: int := 21

  // ---------------------------------------------------------------------
  // What the delegate builds
  // ---------------------------------------------------------------------

  /** The dash pattern of a dashed stroke. */
  datatype Dash = Dash(width: Float, gap: Float)

  /** `GradientDrawable.setStroke(width, color[, dashWidth, dashGap])`. */
  datatype Stroke = Stroke(width: Int32, color: Int32, dash: Option<Dash>)

  /** A uniform `cornerRadius`, or the eight `cornerRadii` (x and y per corner, TL, TR, BR, BL). */
  datatype CornerRadii = Uniform(radius: Float) | PerCorner(radii: seq<Float>)

  /** A `GradientDrawable` as `setDrawable` leaves it. */
  datatype GradientShape = GradientShape(color: Int32, corners: CornerRadii, stroke: Stroke)

  /** One `addState(spec, drawable)` of a `StateListDrawable`. */
  datatype StateEntry = StateEntry(spec: seq<StateCond>, shape: GradientShape)

  /** The background the delegate gives its view. */
  datatype Background =
    | Ripple(colors: ColorStateList, content: GradientShape)
    | StateList(entries: seq<StateEntry>)

  /** The delegate's fields. */
  datatype DelegateState = DelegateState(
    backgroundColor: Int32, backgroundPressColor: Int32,
    cornerRadius: Int32,
    cornerRadiusTL: Int32, cornerRadiusTR: Int32, cornerRadiusBL: Int32, cornerRadiusBR: Int32,
    strokeWidth: Int32, strokeColor: Int32, strokePressColor: Int32, textPressColor: Int32,
    isRadiusHalfHeight: bool, isRadiusHalfHeightLeft: bool, isRadiusHalfHeightRight: bool,
    isRadiusHalfWidthTop: bool, isRadiusHalfWidthBottom: bool,
    isWidthHeightEqual: bool, isRippleEnable: bool,
    dashWidth: Float, dashGap: Float)

  /** The styled attributes, each `None` when the layout does not give it. */
  datatype DelegateAttributes = DelegateAttributes(
    backgroundColor: Option<Int32>, backgroundPressColor: Option<Int32>,
    cornerRadius: Option<Int32>, strokeWidth: Option<Int32>,
    strokeColor: Option<Int32>, strokePressColor: Option<Int32>, textPressColor: Option<Int32>,
    isRadiusHalfHeight: Option<bool>, isWidthHeightEqual: Option<bool>,
    cornerRadiusTL: Option<Int32>, cornerRadiusTR: Option<Int32>,
    cornerRadiusBL: Option<Int32>, cornerRadiusBR: Option<Int32>,
    isRippleEnable: Option<bool>,
    isRadiusHalfHeightLeft: Option<bool>, isRadiusHalfHeightRight: Option<bool>,
    isRadiusHalfWidthTop: Option<bool>, isRadiusHalfWidthBottom: Option<bool>,
    dashWidth: Option<Float>, dashGap: Option<Float>)

  /** `obtainAttributes`: every missing attribute takes its default. */
  function Obtained(a: DelegateAttributes): (s: DelegateState)
    ensures a.backgroundPressColor.None? ==> s.backgroundPressColor == INT_MAX
    ensures a.strokePressColor.None? ==> s.strokePressColor == INT_MAX
    ensures a.textPressColor.None? ==> s.textPressColor == INT_MAX
    ensures a.backgroundColor.None? ==> s.backgroundColor == TRANSPARENT
    ensures a.strokeColor.None? ==> s.strokeColor == TRANSPARENT
    ensures a.isRippleEnable.None? ==> s.isRippleEnable
    ensures a.backgroundColor.Some? ==> s.backgroundColor == a.backgroundColor.value
    ensures a.cornerRadiusTL.Some? ==> s.cornerRadiusTL == a.cornerRadiusTL.value
  {
    DelegateState(
      a.backgroundColor.GetOr(TRANSPARENT), a.backgroundPressColor.GetOr(INT_MAX),
      a.cornerRadius.GetOr(0),
      a.cornerRadiusTL.GetOr(0), a.cornerRadiusTR.GetOr(0), a.cornerRadiusBL.GetOr(0), a.cornerRadiusBR.GetOr(0),
      a.strokeWidth.GetOr(0), a.strokeColor.GetOr(TRANSPARENT), a.strokePressColor.GetOr(INT_MAX),
      a.textPressColor.GetOr(INT_MAX),
      a.isRadiusHalfHeight.GetOr(false), a.isRadiusHalfHeightLeft.GetOr(false), a.isRadiusHalfHeightRight.GetOr(false),
      a.isRadiusHalfWidthTop.GetOr(false), a.isRadiusHalfWidthBottom.GetOr(false),
      a.isWidthHeightEqual.GetOr(false), a.isRippleEnable.GetOr(true),
      a.dashWidth.GetOr(ZERO), a.dashGap.GetOr(ZERO))
  }

  // ---------------------------------------------------------------------
  // setDrawable, getPressedColorSelector, setBgSelector
  // ---------------------------------------------------------------------

  /** Some corner has its own positive radius. */
  predicate HasCornerRadii(s: DelegateState) {
    s.cornerRadiusTL > 0 || s.cornerRadiusTR > 0 || s.cornerRadiusBR > 0 || s.cornerRadiusBL > 0
  }

  /** The per-corner radii in `GradientDrawable` corner order: TL, TR, BR, BL. */
  function CornerOrder(s: DelegateState): seq<Int32> {
    [s.cornerRadiusTL, s.cornerRadiusTR, s.cornerRadiusBR, s.cornerRadiusBL]
  }

  /** The eight values `setDrawable` writes into `radiusArr`. */
  function RadiusArray(s: DelegateState): seq<Float> {
    [FromInt(s.cornerRadiusTL), FromInt(s.cornerRadiusTL), FromInt(s.cornerRadiusTR), FromInt(s.cornerRadiusTR),
     FromInt(s.cornerRadiusBR), FromInt(s.cornerRadiusBR), FromInt(s.cornerRadiusBL), FromInt(s.cornerRadiusBL)]
  }

  /** `setDrawable(gd, color, strokeColor)`: the gradient shape it configures. */
  function ShapeFor(s: DelegateState, color: Int32, strokeColor: Int32): GradientShape {
    GradientShape(
      color,
      if HasCornerRadii(s) then PerCorner(RadiusArray(s)) else Uniform(FromInt(s.cornerRadius)),
      Stroke(s.strokeWidth, strokeColor,
             if Positive(s.dashWidth) && Positive(s.dashGap) then Some(Dash(s.dashWidth, s.dashGap)) else None))
  }

  /**
   * The shape carries the colours it is given and the stroke width; it
   * uses the per-corner radii, each corner's value as both its x and y
   * radius in the order TL, TR, BR, BL, exactly when some corner radius is
   * positive, and the uniform radius otherwise; its stroke is dashed
   * exactly when both the dash width and the dash gap are positive.
   */
  lemma ShapeForMeaning(s: DelegateState, color: Int32, strokeColor: Int32)
    ensures var g := ShapeFor(s, color, strokeColor);
      && g.color == color && g.stroke.color == strokeColor && g.stroke.width == s.strokeWidth
      && (g.corners.PerCorner? <==> exists k :: 0 <= k < 4 && CornerOrder(s)[k] > 0)
      && (g.corners.PerCorner? ==>
            && |g.corners.radii| == 8
            && forall k :: 0 <= k < 4 ==>
                 g.corners.radii[2 * k] == FromInt(CornerOrder(s)[k]) && g.corners.radii[2 * k + 1] == FromInt(CornerOrder(s)[k]))
      && (g.corners.Uniform? ==> g.corners.radius == FromInt(s.cornerRadius))
      && (g.stroke.dash.Some? <==> Positive(s.dashWidth) && Positive(s.dashGap))
      && (g.stroke.dash.Some? ==> g.stroke.dash.value == Dash(s.dashWidth, s.dashGap))
  {
    var order := CornerOrder(s);
    if HasCornerRadii(s) {
      var k := if s.cornerRadiusTL > 0 then 0 else if s.cornerRadiusTR > 0 then 1 else if s.cornerRadiusBR > 0 then 2 else 3;
      assert order[k] > 0;
    }
  }

  /** A press colour that is still the `MAX_VALUE` sentinel falls back to the normal one. */
  function PressOr(press: Int32, normal: Int32): Int32 {
    if press == INT_MAX then normal else press
  }

  /** `getPressedColorSelector(normalColor, pressedColor)`. */
  function PressedColorSelector(normalColor: Int32, pressedColor: Int32): ColorStateList {
    ColorStateList([
      ColorEntry([Is(Pressed)], pressedColor),
      ColorEntry([Is(Focused)], pressedColor),
      ColorEntry([Is(Activated)], pressedColor),
      ColorEntry([], normalColor)])
  }

  /** `setBgSelector`'s view background. */
  function BackgroundFor(s: DelegateState, sdk: int): Background {
    var normal := ShapeFor(s, s.backgroundColor, s.strokeColor);
    if sdk >= LOLLIPOP && s.isRippleEnable then
      Ripple(PressedColorSelector(s.backgroundColor, s.backgroundPressColor), normal)
    else
      StateList([StateEntry([Not(Pressed)], normal)] +
        if s.backgroundPressColor != INT_MAX || s.strokePressColor != INT_MAX then
          [StateEntry([Is(Pressed)], ShapeFor(s, PressOr(s.backgroundPressColor, s.backgroundColor),
                                                PressOr(s.strokePressColor, s.strokeColor)))]
        else [])
  }

  /**
   * `setBgSelector`'s text colours: replaced only for a text view with a
   * pressed text colour, the unpressed colour then being the default colour
   * `defaultColorOf` reads from the current list.
   */
  function TextColorsFor(s: DelegateState, isTextView: bool, defaultColorOf: ColorStateList -> Int32,
                         current: ColorStateList): ColorStateList
  {
    if isTextView && s.textPressColor != INT_MAX then
      ColorStateList([ColorEntry([Not(Pressed)], defaultColorOf(current)), ColorEntry([Is(Pressed)], s.textPressColor)])
    else current
  }

  // ---------------------------------------------------------------------
  // How a state list resolves
  // ---------------------------------------------------------------------

  /** A state spec matches the view's current states: every `state_x` is on and every `-state_x` off. */
  predicate Matches(spec: seq<StateCond>, states: set<ViewState>) {
    forall k :: 0 <= k < |spec| ==> (spec[k].Is? <==> spec[k].state in states)
  }

  /** The colour of the first row that matches, as `ColorStateList.getColorForState` picks it. */
  function ColorFor(rows: seq<ColorEntry>, states: set<ViewState>): Option<Int32>
    decreases |rows|
  {
    if rows == [] then None
    else if Matches(rows[0].spec, states) then Some(rows[0].color)
    else ColorFor(rows[1..], states)
  }

  /** The shape of the first entry whose state spec matches `states`. */
  function ShapeIn(entries: seq<StateEntry>, states: set<ViewState>): Option<GradientShape>
    decreases |entries|
  {
    if entries == [] then None
    else if Matches(entries[0].spec, states) then Some(entries[0].shape)
    else ShapeIn(entries[1..], states)
  }

  /**
   * The shape a `StateListDrawable` shows: the first entry matching the
   * view's states or, when none does, the first one matching the empty
   * state set (`StateSet.WILD_CARD`).
   */
  function Shown(entries: seq<StateEntry>, states: set<ViewState>): Option<GradientShape> {
    var m := ShapeIn(entries, states);
    if m.Some? then m else ShapeIn(entries, {})
  }

  /** The ripple colour list gives the pressed colour in any pressed, focused or activated state, else the normal one. */
  lemma PressedSelectorResolves(normalColor: Int32, pressedColor: Int32, states: set<ViewState>)
    ensures ColorFor(PressedColorSelector(normalColor, pressedColor).entries, states) ==
      Some(if Pressed in states || Focused in states || Activated in states then pressedColor else normalColor)
  {
    var rows := PressedColorSelector(normalColor, pressedColor).entries;
    assert Matches(rows[0].spec, states) <==> Pressed in states by { assert rows[0].spec[0] == Is(Pressed); }
    assert Matches(rows[1].spec, states) <==> Focused in states by { assert rows[1].spec[0] == Is(Focused); }
    assert Matches(rows[2].spec, states) <==> Activated in states by { assert rows[2].spec[0] == Is(Activated); }
    assert Matches(rows[3].spec, states);
    assert rows[1..] == [rows[1], rows[2], rows[3]];
    assert rows[1..][1..] == [rows[2], rows[3]];
    assert rows[1..][1..][1..] == [rows[3]];
    assert ColorFor(rows[1..][1..][1..], states) == Some(normalColor);
    assert ColorFor(rows[1..][1..], states) == Some(if Activated in states then pressedColor else normalColor);
    assert ColorFor(rows[1..], states) ==
      Some(if Focused in states || Activated in states then pressedColor else normalColor);
  }

  /**
   * Without the ripple, the background shows the normal shape while the
   * view is not pressed. Pressed, it shows the pressed shape, whose colours
   * fall back to the normal ones where no press colour is set; when neither
   * press colour is set there is no pressed entry, no entry matches, and
   * the state list falls back to the entry the empty state set matches,
   * the normal shape.
   */
  lemma {:induction false} StateListResolves(s: DelegateState, sdk: int, states: set<ViewState>)
    requires !(sdk >= LOLLIPOP && s.isRippleEnable)
    ensures BackgroundFor(s, sdk).StateList?
    ensures var entries := BackgroundFor(s, sdk).entries;
      && (Pressed !in states ==> Shown(entries, states) == Some(ShapeFor(s, s.backgroundColor, s.strokeColor)))
      && (Pressed in states && (s.backgroundPressColor != INT_MAX || s.strokePressColor != INT_MAX) ==>
            Shown(entries, states) ==
              Some(ShapeFor(s, PressOr(s.backgroundPressColor, s.backgroundColor), PressOr(s.strokePressColor, s.strokeColor))))
      && (Pressed in states && s.backgroundPressColor == INT_MAX && s.strokePressColor == INT_MAX ==>
            ShapeIn(entries, states).None? &&
            Shown(entries, states) == Some(ShapeFor(s, s.backgroundColor, s.strokeColor)))
  {
    var entries := BackgroundFor(s, sdk).entries;
    assert !Matches([Not(Pressed)], states) <==> Pressed in states by {
      assert [Not(Pressed)][0] == Not(Pressed);
    }
    assert Matches([Not(Pressed)], {}) by {
      assert [Not(Pressed)][0] == Not(Pressed);
    }
    if Pressed in states {
      assert entries[1..] == if |entries| == 2 then [entries[1]] else [];
      if |entries| == 2 {
        assert [Is(Pressed)][0] == Is(Pressed);
        assert Matches(entries[1].spec, states);
        assert ShapeIn(entries, states) == ShapeIn(entries[1..], states) == Some(entries[1].shape);
      }
    }
  }

  /**
   * The ripple's pressed colour is the raw `backgroundPressColor`: when
   * that is still the `MAX_VALUE` sentinel the ripple colour is the
   * sentinel itself, where the state-list path would use the normal
   * background colour.
   */
  lemma RippleKeepsSentinel(s: DelegateState, sdk: int)
    requires sdk >= LOLLIPOP && s.isRippleEnable && s.backgroundPressColor == INT_MAX
    ensures BackgroundFor(s, sdk).Ripple?
    ensures ColorFor(BackgroundFor(s, sdk).colors.entries, {Pressed}) == Some(INT_MAX)
    ensures BackgroundFor(s, sdk).content == ShapeFor(s, s.backgroundColor, s.strokeColor)
  {
    PressedSelectorResolves(s.backgroundColor, s.backgroundPressColor, {Pressed});
  }

  /**
   * The text colours the delegate installs show the view's default text
   * colour unpressed and the pressed text colour pressed.
   */
  lemma TextColorsResolve(s: DelegateState, defaultColorOf: ColorStateList -> Int32, current: ColorStateList,
                          states: set<ViewState>)
    requires s.textPressColor != INT_MAX
    ensures ColorFor(TextColorsFor(s, true, defaultColorOf, current).entries, states) ==
      Some(if Pressed in states then s.textPressColor else defaultColorOf(current))
  {
    var rows := TextColorsFor(s, true, defaultColorOf, current).entries;
    assert rows[0].spec[0] == Not(Pressed) && |rows[0].spec| == 1;
    assert rows[1..] == [rows[1]];
    assert rows[1].spec[0] == Is(Pressed) && |rows[1].spec| == 1;
  }

  // ---------------------------------------------------------------------
  // onMeasure and onLayout of the delegating views
  // ---------------------------------------------------------------------

  /** A measure spec handed to `super.onMeasure`: one received unchanged, or `makeMeasureSpec(size, EXACTLY)`. */
  datatype MeasureSpec = Given(raw: Int32) | Exactly(size: Int32)

  /** The delegate call `onLayout` makes, with the radius it passes. */
  datatype LayoutAction =
    | SetCornerRadius(radius: Int32)
    | SetCornerRadiusLeft(radius: Int32)
    | SetCornerRadiusRight(radius: Int32)
    | SetCornerRadiusTop(radius: Int32)
    | SetCornerRadiusBottom(radius: Int32)
    | Rebuild

  /** The half-size flags, in the order `onLayout` tests them. */
  function HalfFlags(s: DelegateState): seq<bool> {
    [s.isRadiusHalfHeight, s.isRadiusHalfHeightLeft, s.isRadiusHalfHeightRight,
     s.isRadiusHalfWidthTop, s.isRadiusHalfWidthBottom]
  }

  /** The index of the first set flag, or the length when none is set. */
  function FirstSet(flags: seq<bool>): (i: nat)
    ensures i <= |flags|
    ensures forall k :: 0 <= k < i ==> !flags[k]
    ensures i < |flags| ==> flags[i]
    decreases |flags|
  {
    if flags == [] then 0
    else if flags[0] then 0
    else 1 + FirstSet(flags[1..])
  }

  /** The first set half-size flag, worked out flag by flag. */
  lemma {:induction false} FirstHalfFlag(s: DelegateState)
    ensures FirstSet(HalfFlags(s)) ==
      if s.isRadiusHalfHeight then 0 else if s.isRadiusHalfHeightLeft then 1
      else if s.isRadiusHalfHeightRight then 2 else if s.isRadiusHalfWidthTop then 3
      else if s.isRadiusHalfWidthBottom then 4 else 5
  {
    var f := HalfFlags(s);
    assert f[1..] == [f[1], f[2], f[3], f[4]];
    assert f[1..][1..] == [f[2], f[3], f[4]];
    assert f[1..][1..][1..] == [f[3], f[4]];
    assert f[1..][1..][1..][1..] == [f[4]];
    assert f[1..][1..][1..][1..][1..] == [];
  }

  /** The position of an action in `onLayout`'s priority order; 5 for the plain rebuild. */
  function Rank(a: LayoutAction): nat {
    match a
    case SetCornerRadius(_) => 0
    case SetCornerRadiusLeft(_) => 1
    case SetCornerRadiusRight(_) => 2
    case SetCornerRadiusTop(_) => 3
    case SetCornerRadiusBottom(_) => 4
    case Rebuild => 5
  }

  /** The delegate's state after `onLayout`'s call: the paired setters convert with `dp2px`. */
  function Performed(s: DelegateState, a: LayoutAction, dp2px: Int32 -> Int32): DelegateState {
    match a
    case SetCornerRadius(r) => s.(cornerRadius := dp2px(r))
    case SetCornerRadiusLeft(r) => s.(cornerRadiusBL := dp2px(r), cornerRadiusTL := dp2px(r))
    case SetCornerRadiusRight(r) => s.(cornerRadiusBR := dp2px(r), cornerRadiusTR := dp2px(r))
    case SetCornerRadiusTop(r) => s.(cornerRadiusTL := dp2px(r), cornerRadiusTR := dp2px(r))
    case SetCornerRadiusBottom(r) => s.(cornerRadiusBL := dp2px(r), cornerRadiusBR := dp2px(r))
    case Rebuild => s
  }

  /** Repeating a layout action changes nothing more. */
  lemma LayoutActionsSettle(s: DelegateState, a: LayoutAction, dp2px: Int32 -> Int32)
    ensures Performed(Performed(s, a, dp2px), a, dp2px) == Performed(s, a, dp2px)
  {
    match a
    case SetCornerRadius(_) =>
    case SetCornerRadiusLeft(_) =>
    case SetCornerRadiusRight(_) =>
    case SetCornerRadiusTop(_) =>
    case SetCornerRadiusBottom(_) =>
    case Rebuild =>
  }

  /**
   * Setting the left and then the right pair to one radius gives the same
   * state as setting the top and then the bottom pair to it, and as the
   * other order: all four corners hold the converted radius, the uniform
   * radius is kept, and the view has per-corner radii exactly when that
   * radius is positive.
   */
  lemma PairedSettersCompose(s: DelegateState, r: Int32, dp2px: Int32 -> Int32)
    ensures var lr := Performed(Performed(s, SetCornerRadiusLeft(r), dp2px), SetCornerRadiusRight(r), dp2px);
      && lr == Performed(Performed(s, SetCornerRadiusTop(r), dp2px), SetCornerRadiusBottom(r), dp2px)
      && lr == Performed(Performed(s, SetCornerRadiusRight(r), dp2px), SetCornerRadiusLeft(r), dp2px)
      && lr.cornerRadiusTL == lr.cornerRadiusTR == lr.cornerRadiusBR == lr.cornerRadiusBL == dp2px(r)
      && lr.cornerRadius == s.cornerRadius
      && (HasCornerRadii(lr) <==> dp2px(r) > 0)
  {
  }

  // ---------------------------------------------------------------------
  // The class
  // ---------------------------------------------------------------------

  /**
   * The delegate. `sdk` is the platform version and `isTextView` says
   * whether the view it serves is a `TextView`; `dp2px` is the display's
   * dp-to-pixel conversion and `defaultColorOf` is `ColorStateList.getDefaultColor`.
   * `background` is the background the delegate last gave the view (`None`
   * before the first rebuild) and `textColors` is the view's text colours.
   */
  class RoundViewDelegate {
    const sdk: int
    const isTextView: bool
    const defaultColorOf: ColorStateList -> Int32
    const dp2px: Int32 -> Int32
    const radiusArr: array<Float>
    var backgroundColor: Int32
    var backgroundPressColor: Int32
    var cornerRadius: Int32
    var cornerRadiusTL: Int32
    var cornerRadiusTR: Int32
    var cornerRadiusBL: Int32
    var cornerRadiusBR: Int32
    var strokeWidth: Int32
    var strokeColor: Int32
    var strokePressColor: Int32
    var textPressColor: Int32
    var isRadiusHalfHeight: bool
    var isRadiusHalfHeightLeft: bool
    var isRadiusHalfHeightRight: bool
    var isRadiusHalfWidthTop: bool
    var isRadiusHalfWidthBottom: bool
    var isWidthHeightEqual: bool
    var isRippleEnable: bool
    var dashWidth: Float
    var dashGap: Float
    var background: Option<Background>
    var textColors: ColorStateList

    ghost predicate Valid()
      reads this
    {
      radiusArr.Length == 8
    }

    /** The delegate's fields as a value. */
    ghost function State(): DelegateState
      reads this
    {
      DelegateState(
        backgroundColor, backgroundPressColor, cornerRadius,
        cornerRadiusTL, cornerRadiusTR, cornerRadiusBL, cornerRadiusBR,
        strokeWidth, strokeColor, strokePressColor, textPressColor,
        isRadiusHalfHeight, isRadiusHalfHeightLeft, isRadiusHalfHeightRight,
        isRadiusHalfWidthTop, isRadiusHalfWidthBottom, isWidthHeightEqual, isRippleEnable,
        dashWidth, dashGap)
    }

    /** The view shows the background of the current state, and the text colours that go with it. */
    ghost predicate Rebuilt(previousText: ColorStateList)
      reads this
    {
      && background == Some(BackgroundFor(State(), sdk))
      && textColors == TextColorsFor(State(), isTextView, defaultColorOf, previousText)
    }

    /** The constructor: `obtainAttributes`, and no background yet. */
    constructor (attrs: DelegateAttributes, sdk: int, isTextView: bool, textColors: ColorStateList,
                 defaultColorOf: ColorStateList -> Int32, dp2px: Int32 -> Int32)
      ensures Valid() && fresh(radiusArr)
      ensures State() == Obtained(attrs) && background.None? && this.textColors == textColors
      ensures this.sdk == sdk && this.isTextView == isTextView && this.defaultColorOf == defaultColorOf
      ensures this.dp2px == dp2px
    {
      this.sdk := sdk;
      this.isTextView := isTextView;
      this.defaultColorOf := defaultColorOf;
      this.dp2px := dp2px;
      radiusArr := new Float[8](_ => ZERO);
      var s := Obtained(attrs);
      backgroundColor, backgroundPressColor, cornerRadius := s.backgroundColor, s.backgroundPressColor, s.cornerRadius;
      cornerRadiusTL, cornerRadiusTR, cornerRadiusBL, cornerRadiusBR :=
        s.cornerRadiusTL, s.cornerRadiusTR, s.cornerRadiusBL, s.cornerRadiusBR;
      strokeWidth, strokeColor, strokePressColor, textPressColor :=
        s.strokeWidth, s.strokeColor, s.strokePressColor, s.textPressColor;
      isRadiusHalfHeight, isRadiusHalfHeightLeft, isRadiusHalfHeightRight :=
        s.isRadiusHalfHeight, s.isRadiusHalfHeightLeft, s.isRadiusHalfHeightRight;
      isRadiusHalfWidthTop, isRadiusHalfWidthBottom := s.isRadiusHalfWidthTop, s.isRadiusHalfWidthBottom;
      isWidthHeightEqual, isRippleEnable := s.isWidthHeightEqual, s.isRippleEnable;
      dashWidth, dashGap := s.dashWidth, s.dashGap;
      background := None;
      this.textColors := textColors;
    }

    /** `setDrawable(gd, color, strokeColor)`; the eight radii go through `radiusArr`. */
    method SetDrawable(color: Int32, strokeColor: Int32) returns (shape: GradientShape)
      requires Valid()
      modifies radiusArr
      ensures shape == ShapeFor(State(), color, strokeColor)
      ensures HasCornerRadii(State()) ==> radiusArr[..] == RadiusArray(State())
      ensures !HasCornerRadii(State()) ==> radiusArr[..] == old(radiusArr[..])
    {
      var corners;
      if cornerRadiusTL > 0 || cornerRadiusTR > 0 || cornerRadiusBR > 0 || cornerRadiusBL > 0 {
        radiusArr[0] := FromInt(cornerRadiusTL);
        radiusArr[1] := FromInt(cornerRadiusTL);
        radiusArr[2] := FromInt(cornerRadiusTR);
        radiusArr[3] := FromInt(cornerRadiusTR);
        radiusArr[4] := FromInt(cornerRadiusBR);
        radiusArr[5] := FromInt(cornerRadiusBR);
        radiusArr[6] := FromInt(cornerRadiusBL);
        radiusArr[7] := FromInt(cornerRadiusBL);
        assert radiusArr[..] == RadiusArray(State());
        corners := PerCorner(radiusArr[..]);
      } else {
        corners := Uniform(FromInt(cornerRadius));
      }
      var stroke;
      if Positive(dashWidth) && Positive(dashGap) {
        stroke := Stroke(strokeWidth, strokeColor, Some(Dash(dashWidth, dashGap)));
      } else {
        stroke := Stroke(strokeWidth, strokeColor, None);
      }
      shape := GradientShape(color, corners, stroke);
    }

    /** `setBgSelector`: rebuild the view's background, and its text colours for a text view. */
    method SetBgSelector()
      requires Valid()
      modifies radiusArr, this`background, this`textColors
      ensures Valid() && State() == old(State()) && Rebuilt(old(textColors))
    {
      var b;
      if sdk >= LOLLIPOP && isRippleEnable {
        b := RippleBackground();
      } else {
        b := StateListBackground();
      }
      background := Some(b);
      if isTextView {
        if textPressColor != INT_MAX {
          textColors := ColorStateList([ColorEntry([Not(Pressed)], defaultColorOf(textColors)), ColorEntry([Is(Pressed)], textPressColor)]);
        }
      }
    }

    /** The ripple branch of `setBgSelector`. */
    method RippleBackground() returns (b: Background)
      requires Valid() && sdk >= LOLLIPOP && isRippleEnable
      modifies radiusArr
      ensures b == BackgroundFor(State(), sdk)
    {
      var normal := SetDrawable(backgroundColor, strokeColor);
      b := Ripple(PressedColorSelector(backgroundColor, backgroundPressColor), normal);
    }

    /** The state-list branch of `setBgSelector`. */
    method StateListBackground() returns (b: Background)
      requires Valid() && !(sdk >= LOLLIPOP && isRippleEnable)
      modifies radiusArr
      ensures b == BackgroundFor(State(), sdk)
    {
      var normal := SetDrawable(backgroundColor, strokeColor);
      var entries := [StateEntry([Not(Pressed)], normal)];
      if backgroundPressColor != INT_MAX || strokePressColor != INT_MAX {
        var pressed := SetDrawable(if backgroundPressColor == INT_MAX then backgroundColor else backgroundPressColor,
                                   if strokePressColor == INT_MAX then strokeColor else strokePressColor);
        entries := entries + [StateEntry([Is(Pressed)], pressed)];
      }
      b := StateList(entries);
    }

    /** `setBackgroundColor`. */
    method SetBackgroundColor(color: Int32)
      requires Valid()
      modifies this, radiusArr
      ensures Valid() && State() == old(State()).(backgroundColor := color) && Rebuilt(old(textColors))
    {
      backgroundColor := color;
      SetBgSelector();
    }

    /** `setBackgroundPressColor`. */
    method SetBackgroundPressColor(color: Int32)
      requires Valid()
      modifies this, radiusArr
      ensures Valid() && State() == old(State()).(backgroundPressColor := color) && Rebuilt(old(textColors))
    {
      backgroundPressColor := color;
      SetBgSelector();
    }

    /** `setCornerRadius`: the argument is in dp. */
    method SetCornerRadius(radius: Int32)
      requires Valid()
      modifies this, radiusArr
      ensures Valid() && State() == old(State()).(cornerRadius := dp2px(radius)) && Rebuilt(old(textColors))
    {
      cornerRadius := dp2px(radius);
      SetBgSelector();
    }

    /** `setCornerRadiusLeft`: both left corners, in dp. */
    method SetCornerRadiusLeft(radius: Int32)
      requires Valid()
      modifies this, radiusArr
      ensures Valid() && State() == old(State()).(cornerRadiusBL := dp2px(radius), cornerRadiusTL := dp2px(radius))
      ensures Rebuilt(old(textColors))
    {
      cornerRadiusBL := dp2px(radius);
      cornerRadiusTL := dp2px(radius);
      SetBgSelector();
    }

    /** `setCornerRadiusRight`: both right corners, in dp. */
    method SetCornerRadiusRight(radius: Int32)
      requires Valid()
      modifies this, radiusArr
      ensures Valid() && State() == old(State()).(cornerRadiusBR := dp2px(radius), cornerRadiusTR := dp2px(radius))
      ensures Rebuilt(old(textColors))
    {
      cornerRadiusBR := dp2px(radius);
      cornerRadiusTR := dp2px(radius);
      SetBgSelector();
    }

    /** `setCornerRadiusTop`: both top corners, in dp. */
    method SetCornerRadiusTop(radius: Int32)
      requires Valid()
      modifies this, radiusArr
      ensures Valid() && State() == old(State()).(cornerRadiusTL := dp2px(radius), cornerRadiusTR := dp2px(radius))
      ensures Rebuilt(old(textColors))
    {
      cornerRadiusTL := dp2px(radius);
      cornerRadiusTR := dp2px(radius);
      SetBgSelector();
    }

    /** `setCornerRadiusBottom`: both bottom corners, in dp. */
    method SetCornerRadiusBottom(radius: Int32)
      requires Valid()
      modifies this, radiusArr
      ensures Valid() && State() == old(State()).(cornerRadiusBL := dp2px(radius), cornerRadiusBR := dp2px(radius))
      ensures Rebuilt(old(textColors))
    {
      cornerRadiusBL := dp2px(radius);
      cornerRadiusBR := dp2px(radius);
      SetBgSelector();
    }

    /** `setStrokeWidth`: in dp. */
    method SetStrokeWidth(width: Int32)
      requires Valid()
      modifies this, radiusArr
      ensures Valid() && State() == old(State()).(strokeWidth := dp2px(width)) && Rebuilt(old(textColors))
    {
      strokeWidth := dp2px(width);
      SetBgSelector();
    }

    /** `setDashWidth`. */
    method SetDashWidth(width: Float)
      requires Valid()
      modifies this, radiusArr
      ensures Valid() && State() == old(State()).(dashWidth := width) && Rebuilt(old(textColors))
    {
      dashWidth := width;
      SetBgSelector();
    }

    /** `setDashGap`. */
    method SetDashGap(gap: Float)
      requires Valid()
      modifies this, radiusArr
      ensures Valid() && State() == old(State()).(dashGap := gap) && Rebuilt(old(textColors))
    {
      dashGap := gap;
      SetBgSelector();
    }

    /** `setStrokeColor`. */
    method SetStrokeColor(color: Int32)
      requires Valid()
      modifies this, radiusArr
      ensures Valid() && State() == old(State()).(strokeColor := color) && Rebuilt(old(textColors))
    {
      strokeColor := color;
      SetBgSelector();
    }

    /** `setStrokePressColor`. */
    method SetStrokePressColor(color: Int32)
      requires Valid()
      modifies this, radiusArr
      ensures Valid() && State() == old(State()).(strokePressColor := color) && Rebuilt(old(textColors))
    {
      strokePressColor := color;
      SetBgSelector();
    }

    /** `setTextPressColor`. */
    method SetTextPressColor(color: Int32)
      requires Valid()
      modifies this, radiusArr
      ensures Valid() && State() == old(State()).(textPressColor := color) && Rebuilt(old(textColors))
    {
      textPressColor := color;
      SetBgSelector();
    }

    /** `setRadiusHalfHeight`. */
    method SetRadiusHalfHeight(on: bool)
      requires Valid()
      modifies this, radiusArr
      ensures Valid() && State() == old(State()).(isRadiusHalfHeight := on) && Rebuilt(old(textColors))
    {
      isRadiusHalfHeight := on;
      SetBgSelector();
    }

    /** `setRadiusHalfHeightLeft`. */
    method SetRadiusHalfHeightLeft(on: bool)
      requires Valid()
      modifies this, radiusArr
      ensures Valid() && State() == old(State()).(isRadiusHalfHeightLeft := on) && Rebuilt(old(textColors))
    {
      isRadiusHalfHeightLeft := on;
      SetBgSelector();
    }

    /** `setRadiusHalfHeightRight`. */
    method SetRadiusHalfHeightRight(on: bool)
      requires Valid()
      modifies this, radiusArr
      ensures Valid() && State() == old(State()).(isRadiusHalfHeightRight := on) && Rebuilt(old(textColors))
    {
      isRadiusHalfHeightRight := on;
      SetBgSelector();
    }

    /** `setRadiusHalfWidthTop`. */
    method SetRadiusHalfWidthTop(on: bool)
      requires Valid()
      modifies this, radiusArr
      ensures Valid() && State() == old(State()).(isRadiusHalfWidthTop := on) && Rebuilt(old(textColors))
    {
      isRadiusHalfWidthTop := on;
      SetBgSelector();
    }

    /** `setRadiusHalfWidthBottom`. */
    method SetRadiusHalfWidthBottom(on: bool)
      requires Valid()
      modifies this, radiusArr
      ensures Valid() && State() == old(State()).(isRadiusHalfWidthBottom := on) && Rebuilt(old(textColors))
    {
      isRadiusHalfWidthBottom := on;
      SetBgSelector();
    }

    /** `setWidthHeightEqual`. */
    method SetWidthHeightEqual(on: bool)
      requires Valid()
      modifies this, radiusArr
      ensures Valid() && State() == old(State()).(isWidthHeightEqual := on) && Rebuilt(old(textColors))
    {
      isWidthHeightEqual := on;
      SetBgSelector();
    }

    /** `setCornerRadiusTL`: the raw value, not converted. */
    method SetCornerRadiusTL(radius: Int32)
      requires Valid()
      modifies this, radiusArr
      ensures Valid() && State() == old(State()).(cornerRadiusTL := radius) && Rebuilt(old(textColors))
    {
      cornerRadiusTL := radius;
      SetBgSelector();
    }

    /** `setCornerRadiusTR`: the raw value, not converted. */
    method SetCornerRadiusTR(radius: Int32)
      requires Valid()
      modifies this, radiusArr
      ensures Valid() && State() == old(State()).(cornerRadiusTR := radius) && Rebuilt(old(textColors))
    {
      cornerRadiusTR := radius;
      SetBgSelector();
    }

    /** `setCornerRadiusBL`: the raw value, not converted. */
    method SetCornerRadiusBL(radius: Int32)
      requires Valid()
      modifies this, radiusArr
      ensures Valid() && State() == old(State()).(cornerRadiusBL := radius) && Rebuilt(old(textColors))
    {
      cornerRadiusBL := radius;
      SetBgSelector();
    }

    /** `setCornerRadiusBR`: the raw value, not converted. */
    method SetCornerRadiusBR(radius: Int32)
      requires Valid()
      modifies this, radiusArr
      ensures Valid() && State() == old(State()).(cornerRadiusBR := radius) && Rebuilt(old(textColors))
    {
      cornerRadiusBR := radius;
      SetBgSelector();
    }

    /** The delegate call a view's `onLayout` makes. */
    method Perform(a: LayoutAction)
      requires Valid()
      modifies this, radiusArr
      ensures Valid() && State() == Performed(old(State()), a, dp2px) && Rebuilt(old(textColors))
    {
      match a
      case SetCornerRadius(r) => SetCornerRadius(r);
      case SetCornerRadiusLeft(r) => SetCornerRadiusLeft(r);
      case SetCornerRadiusRight(r) => SetCornerRadiusRight(r);
      case SetCornerRadiusTop(r) => SetCornerRadiusTop(r);
      case SetCornerRadiusBottom(r) => SetCornerRadiusBottom(r);
      case Rebuild => SetBgSelector();
    }
  }
}
