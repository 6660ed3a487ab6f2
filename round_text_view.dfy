/**
 * `RoundTextView`: a text view whose background comes from a
 * `RoundViewDelegate`. It squares itself when asked to, and after every
 * layout it sets the radius the half-size flags ask for, or just rebuilds
 * the background.
 */
module RoundTextViews {
  import opened Graphics
  import opened RoundViewDelegates

  /**
   * `onMeasure`: the two specs handed to `super.onMeasure`, given the
   * delegate's state, the view's current width and height and the specs
   * received.
   */
  function OnMeasure(s: DelegateState, width: Int32, height: Int32, widthSpec: Int32, heightSpec: Int32)
    : (r: (MeasureSpec, MeasureSpec))
    ensures s.isWidthHeightEqual && width > 0 && height > 0 ==>
      && r.0 == r.1 && r.0.Exactly?
      && r.0.size >= width && r.0.size >= height
      && (r.0.size == width || r.0.size == height)
    ensures !(s.isWidthHeightEqual && width > 0 && height > 0) ==> r == (Given(widthSpec), Given(heightSpec))
  {
    if s.isWidthHeightEqual && width > 0 && height > 0 then
      var m := if width >= height then width else height;
      (Exactly(m), Exactly(m))
    else
      (Given(widthSpec), Given(heightSpec))
  }

  /**
   * The delegate call `onLayout` makes: the first half-size flag that is
   * set wins, the three height flags pass half the height and the two
   * width flags half the width; with no flag set it only rebuilds.
   */
  function OnLayoutCall(s: DelegateState, width: Int32, height: Int32): (a: LayoutAction)
    ensures Rank(a) == FirstSet(HalfFlags(s))
    ensures Rank(a) < 3 ==> a.radius == Half(height)
    ensures 3 <= Rank(a) < 5 ==> a.radius == Half(width)
  {
    FirstHalfFlag(s);
    if s.isRadiusHalfHeight then SetCornerRadius(Half(height))
    else if s.isRadiusHalfHeightLeft then SetCornerRadiusLeft(Half(height))
    else if s.isRadiusHalfHeightRight then SetCornerRadiusRight(Half(height))
    else if s.isRadiusHalfWidthTop then SetCornerRadiusTop(Half(width))
    else if s.isRadiusHalfWidthBottom then SetCornerRadiusBottom(Half(width))
    else Rebuild
  }

  /** `onLayout`, after the platform's own layout: the delegate of a text view makes the call. */
  method OnLayout(delegate: RoundViewDelegate, width: Int32, height: Int32)
    requires delegate.Valid() && delegate.isTextView
    modifies delegate, delegate.radiusArr
    ensures delegate.Valid()
    ensures delegate.State() == Performed(old(delegate.State()), OnLayoutCall(old(delegate.State()), width, height), delegate.dp2px)
    ensures delegate.Rebuilt(old(delegate.textColors))
  {
    if delegate.isRadiusHalfHeight {
      delegate.SetCornerRadius(Half(height));
    } else if delegate.isRadiusHalfHeightLeft {
      delegate.SetCornerRadiusLeft(Half(height));
    } else if delegate.isRadiusHalfHeightRight {
      delegate.SetCornerRadiusRight(Half(height));
    } else if delegate.isRadiusHalfWidthTop {
      delegate.SetCornerRadiusTop(Half(width));
    } else if delegate.isRadiusHalfWidthBottom {
      delegate.SetCornerRadiusBottom(Half(width));
    } else {
      delegate.SetBgSelector();
    }
  }

  /**
   * Laying out again at the same size changes nothing more: the call leaves
   * the half-size flags alone, so the second layout makes the same call and
   * stores the same radius again.
   */
  lemma {:induction false} RelayoutIsStable(s: DelegateState, width: Int32, height: Int32, dp2px: Int32 -> Int32)
    ensures var t := Performed(s, OnLayoutCall(s, width, height), dp2px);
      && OnLayoutCall(t, width, height) == OnLayoutCall(s, width, height)
      && Performed(t, OnLayoutCall(t, width, height), dp2px) == t
  {
    var a := OnLayoutCall(s, width, height);
    var t := Performed(s, a, dp2px);
    assert t.isRadiusHalfHeight == s.isRadiusHalfHeight && t.isRadiusHalfHeightLeft == s.isRadiusHalfHeightLeft;
    assert t.isRadiusHalfHeightRight == s.isRadiusHalfHeightRight && t.isRadiusHalfWidthTop == s.isRadiusHalfWidthTop;
    assert t.isRadiusHalfWidthBottom == s.isRadiusHalfWidthBottom;
    assert OnLayoutCall(t, width, height) == a;
    match a
    case SetCornerRadius(r) =>
    case SetCornerRadiusLeft(r) =>
    case SetCornerRadiusRight(r) =>
    case SetCornerRadiusTop(r) =>
    case SetCornerRadiusBottom(r) =>
    case Rebuild =>
  }

  /**
   * The half-height radius goes through the delegate's dp-to-pixel
   * conversion although it is already in pixels: the stored radius is
   * `dp2px(height / 2)`, which is half the height only where the
   * conversion leaves that value alone.
   */
  lemma HalfHeightRadiusIsConverted(s: DelegateState, width: Int32, height: Int32, dp2px: Int32 -> Int32)
    requires s.isRadiusHalfHeight
    ensures Performed(s, OnLayoutCall(s, width, height), dp2px) == s.(cornerRadius := dp2px(Half(height)))
    ensures Performed(s, OnLayoutCall(s, width, height), dp2px).cornerRadius == Half(height) <==>
      dp2px(Half(height)) == Half(height)
  {
  }
}
