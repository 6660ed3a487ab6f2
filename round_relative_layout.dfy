/**
 * `RoundRelativeLayout`: a relative layout whose background comes from a
 * `RoundViewDelegate`. Its measure and layout rules are those of
 * `RoundTextView`, written out again in its own source; its delegate serves
 * a view that is not a text view, so it never touches text colours.
 */
module RoundRelativeLayouts {
  import opened Graphics
  import opened RoundViewDelegates
  import RoundTextViews

  /** `onMeasure`: the two specs handed to `super.onMeasure`. */
  function OnMeasure(s: DelegateState, width: Int32, height: Int32, widthSpec: Int32, heightSpec: Int32)
    : (r: (MeasureSpec, MeasureSpec))
    ensures s.isWidthHeightEqual && width > 0 && height > 0 ==>
      && r.0 == r.1 && r.0.Exactly?
      && r.0.size >= width && r.0.size >= height
      && (r.0.size == width || r.0.size == height)
    ensures !(s.isWidthHeightEqual && width > 0 && height > 0) ==> r == (Given(widthSpec), Given(heightSpec))
  {
    if s.isWidthHeightEqual && width > 0 && height > 0 then
      var m := if width >= height then width else height;
      (Exactly(m), Exactly(m))
    else
      (Given(widthSpec), Given(heightSpec))
  }

  /** The delegate call `onLayout` makes: the first half-size flag that is set wins. */
  function OnLayoutCall(s: DelegateState, width: Int32, height: Int32): (a: LayoutAction)
    ensures Rank(a) == FirstSet(HalfFlags(s))
    ensures Rank(a) < 3 ==> a.radius == Half(height)
    ensures 3 <= Rank(a) < 5 ==> a.radius == Half(width)
  {
    FirstHalfFlag(s);
    if s.isRadiusHalfHeight then SetCornerRadius(Half(height))
    else if s.isRadiusHalfHeightLeft then SetCornerRadiusLeft(Half(height))
    else if s.isRadiusHalfHeightRight then SetCornerRadiusRight(Half(height))
    else if s.isRadiusHalfWidthTop then SetCornerRadiusTop(Half(width))
    else if s.isRadiusHalfWidthBottom then SetCornerRadiusBottom(Half(width))
    else Rebuild
  }

  /** The two views follow the same measure and layout rules, so what is proved of one holds of the other. */
  lemma SameRulesAsTextView(s: DelegateState, width: Int32, height: Int32, widthSpec: Int32, heightSpec: Int32)
    ensures OnMeasure(s, width, height, widthSpec, heightSpec) ==
      RoundTextViews.OnMeasure(s, width, height, widthSpec, heightSpec)
    ensures OnLayoutCall(s, width, height) == RoundTextViews.OnLayoutCall(s, width, height)
  {
  }

  /** `onLayout`, after the platform's own layout: the delegate makes the call; text colours stay as they are. */
  method OnLayout(delegate: RoundViewDelegate, width: Int32, height: Int32)
    requires delegate.Valid() && !delegate.isTextView
    modifies delegate, delegate.radiusArr
    ensures delegate.Valid()
    ensures delegate.State() == Performed(old(delegate.State()), OnLayoutCall(old(delegate.State()), width, height), delegate.dp2px)
    ensures delegate.background == Some(BackgroundFor(delegate.State(), delegate.sdk))
    ensures delegate.textColors == old(delegate.textColors)
  {
    if delegate.isRadiusHalfHeight {
      delegate.SetCornerRadius(Half(height));
    } else if delegate.isRadiusHalfHeightLeft {
      delegate.SetCornerRadiusLeft(Half(height));
    } else if delegate.isRadiusHalfHeightRight {
      delegate.SetCornerRadiusRight(Half(height));
    } else if delegate.isRadiusHalfWidthTop {
      delegate.SetCornerRadiusTop(Half(width));
    } else if delegate.isRadiusHalfWidthBottom {
      delegate.SetCornerRadiusBottom(Half(width));
    } else {
      delegate.SetBgSelector();
    }
  }
}
