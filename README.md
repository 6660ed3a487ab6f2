# round-view in Dafny

A model of the Android library round-view (package `com.vks`). It covers its five widget sources:

- **`RoundedDrawable`**: a bitmap drawable with one shared corner radius and a "rounded" flag per corner. It also has an oval mode, a border, a scale type and two shader tile modes.
- **`RoundedImageView`**: an image view with four corner-radius slots. It converts what it shows into rounded drawables and pushes its attributes into every rounded drawable of that drawable's tree.
- **`RoundViewDelegate`**: keeps the colours, radii, stroke and half-size flags of a delegating view. After every change it rebuilds the view's background (a ripple, or a state list) and, for a text view, its pressed text colours.
- **`RoundTextView`** and **`RoundRelativeLayout`**: views that square themselves on request. After layout they set the radius their half-size flags ask for.

Files, one module each:

- `graphics.dfy` (`Graphics`): the platform values the widgets compute with.
  - `Int32` is Kotlin's `Int`. `Half` is its truncating `/ 2`.
  - `Float` is `Num(real) | PosInf | NegInf | NaN`. Structural equality on it is `Float.equals`; `FEq` is the primitive `==`.
  - Also: scale types, tile modes, rectangles, colour state lists and bitmaps.
- `rounded_drawable.dfy` (`RoundedDrawables`):
  - the drawable's state as the value `DrawableState`;
  - each setter and `draw` as a function on that value;
  - the drawable tree and `fromDrawable`;
  - the class `RoundedDrawable`, whose methods update its fields (the rounded flags in an array written in place) and are proved to produce those functions' results.
- `rounded_image_view.dfy` (`RoundedImageViews`): the same arrangement for the image view, with `ImageViewState`, its setter functions, `updateAttrs` on the tree and the class `RoundedImageView`.
- `round_view_delegate.dfy` (`RoundViewDelegates`):
  - the delegate's state `DelegateState`;
  - the gradient shape, ripple and state-list background it builds;
  - how a state list resolves;
  - the class `RoundViewDelegate` with its 23 setters and `setBgSelector`.
- `round_text_view.dfy` (`RoundTextViews`) and `round_relative_layout.dfy` (`RoundRelativeLayouts`): `onMeasure` and `onLayout` of the two views.

The platform is a set of parameters:

- the SDK level, and whether the delegate's view is a `TextView`;
- the dp-to-pixel conversion, as a function of type `Int32 -> Int32`;
- `ColorStateList.getDefaultColor`;
- the resource lookup of `setImageResource`;
- the rectangle `updateShaderMatrix` computes, as an input of `draw`.

## Model

| member | source | states |
|---|---|---|
| RoundedDrawables.RoundedDrawable.constructor | library/src/main/java/com/vks/RoundedDrawable.kt:41-54 | a new drawable has radius 0, all four corners flagged rounded, FIT_CENTER, CLAMP × CLAMP, a pending shader rebuild and a black border colour |
| RoundedDrawables.InitialRadiusBacked | library/src/main/java/com/vks/RoundedDrawable.kt:46-47 | the initial state satisfies the radius invariant, with radius 0 and every corner rounded |
| RoundedDrawables.RoundedDrawable.Only | library/src/main/java/com/vks/RoundedDrawable.kt:655-665 | the loop returns true iff the flag at the index is the only one set (`b[j] == (j == index)` for every j) |
| RoundedDrawables.RoundedDrawable.Any | library/src/main/java/com/vks/RoundedDrawable.kt:667-674 | the loop returns true iff some flag is set |
| RoundedDrawables.RoundedDrawable.All | library/src/main/java/com/vks/RoundedDrawable.kt:676-683 | the loop returns true iff NO flag is set, against the function's name |
| RoundedDrawables.RoundedDrawable.GetCornerRadiusAt | library/src/main/java/com/vks/RoundedDrawable.kt:429-431 | a corner reports the shared radius when it is flagged rounded, else 0 |
| RoundedDrawables.NonzeroRadiiCount | library/src/main/java/com/vks/RoundedDrawable.kt:486-498 | the set of non-zero radii has more than one member iff two radii are non-zero and differ; otherwise its one member is the first non-zero radius |
| RoundedDrawables.FirstNonzeroIsInput | library/src/main/java/com/vks/RoundedDrawable.kt:500-501 | the radius taken from the set is one of the four inputs, and is non-zero iff the set is non-empty |
| RoundedDrawables.ConsistentIffNoConflict | library/src/main/java/com/vks/RoundedDrawable.kt:494-498 | the pairwise agreement test is exactly the absence of two conflicting non-zero radii |
| RoundedDrawables.SharedRadiusOutcome | library/src/main/java/com/vks/RoundedDrawable.kt:486-508 | the pairwise outcome: a conflict throws; otherwise all-zero gives 0, and the one non-zero radius is taken if valid and thrown back if not |
| RoundedDrawables.RoundedDrawable.ValidatedRadius | library/src/main/java/com/vks/RoundedDrawable.kt:486-508 | the set-based validation returns exactly that pairwise outcome |
| RoundedDrawables.CornerRadiiOutcome | library/src/main/java/com/vks/RoundedDrawable.kt:482-515 | the four-argument setter throws "multiple radii" iff two radii conflict. It succeeds iff additionally every non-zero radius is finite and not negative; otherwise it throws the invalid radius. On success the shared radius is valid, and is 0 iff every input is 0 |
| RoundedDrawables.CornerRadiiRoundTrip | library/src/main/java/com/vks/RoundedDrawable.kt:505-513 | after a successful four-argument call, `getCornerRadius(c)` returns corner c's own input, corners indexed by ordinal TL, TR, BR, BL |
| RoundedDrawables.RoundedDrawable.SetCornerRadii | library/src/main/java/com/vks/RoundedDrawable.kt:482-515 | the method throws before any assignment (the state is unchanged on error); on success the fields are the four-argument setter's result |
| RoundedDrawables.UniformCornerRadius | library/src/main/java/com/vks/RoundedDrawable.kt:439-442 | `setCornerRadius(r)` succeeds iff r is valid, and then every corner reports r |
| RoundedDrawables.RoundedDrawable.StoreCornerFlags | library/src/main/java/com/vks/RoundedDrawable.kt:510-513 | the four flags are written into the array in corner order TL, TR, BR, BL |
| RoundedDrawables.RoundedDrawable.SetCornerRadius | library/src/main/java/com/vks/RoundedDrawable.kt:439-442 | the one-argument setter is the four-argument one with r on every corner |
| RoundedDrawables.CornerOutcome | library/src/main/java/com/vks/RoundedDrawable.kt:451-471 | per-corner setter: it throws iff the new and current radius are both non-zero and differ. Otherwise the corner reports the new radius (0 for 0) and the other flags stay. A non-zero radius becomes shared only over 0. Setting 0 resets the shared radius only when that corner was the sole rounded one |
| RoundedDrawables.RoundedDrawable.SetCornerRadiusAt | library/src/main/java/com/vks/RoundedDrawable.kt:451-471 | on error nothing changes; otherwise the fields are the per-corner setter's result, with the flag written in place |
| RoundedDrawables.PerCornerSetterSkipsValidation | library/src/main/java/com/vks/RoundedDrawable.kt:452-468 | the per-corner setter installs a negative radius that the four-argument setter rejects |
| RoundedDrawables.CornerSetterKeepsRadiusBacked | library/src/main/java/com/vks/RoundedDrawable.kt:458-468 | the per-corner setter keeps the invariant "a non-zero shared radius has a rounded corner" |
| RoundedDrawables.CornerRadiiKeepRadiusBacked | library/src/main/java/com/vks/RoundedDrawable.kt:505-513 | the four-argument setter establishes that invariant from any state |
| RoundedDrawables.SettersSettle | library/src/main/java/com/vks/RoundedDrawable.kt:553-589 | after each setter the drawable reports the requested value (FIT_CENTER for null), so repeating the call changes nothing; a tile setter sets the rebuild flag exactly when the mode changed |
| RoundedDrawables.TileSettersCommute | library/src/main/java/com/vks/RoundedDrawable.kt:569-589 | setting the x and the y tile mode gives the same drawable in either order |
| RoundedDrawables.ScaleAndTileSettersCommute | library/src/main/java/com/vks/RoundedDrawable.kt:553-589 | the scale-type setter commutes with each tile setter |
| RoundedDrawables.LayoutStaysCurrent | library/src/main/java/com/vks/RoundedDrawable.kt:225-231 | after `onBoundsChange` the shader layout is computed from the current scale type, border width and bounds, and the scale-type and tile setters keep it so |
| RoundedDrawables.RoundedDrawable.SetScaleType | library/src/main/java/com/vks/RoundedDrawable.kt:553-563 | the fields become the scale-type setter's result |
| RoundedDrawables.RoundedDrawable.SetTileModeX | library/src/main/java/com/vks/RoundedDrawable.kt:569-576 | the fields become the tile-mode setter's result |
| RoundedDrawables.RoundedDrawable.SetTileModeY | library/src/main/java/com/vks/RoundedDrawable.kt:582-589 | likewise for the y tile mode |
| RoundedDrawables.RoundedDrawable.SetBorderWidth | library/src/main/java/com/vks/RoundedDrawable.kt:521-525 | only the border width changes |
| RoundedDrawables.RoundedDrawable.SetBorderColor | library/src/main/java/com/vks/RoundedDrawable.kt:531-538 | only the border colours change; null becomes `valueOf(0)` |
| RoundedDrawables.RoundedDrawable.SetBorderColorInt | library/src/main/java/com/vks/RoundedDrawable.kt:527-529 | the border colours become `valueOf(color)` |
| RoundedDrawables.RoundedDrawable.SetOval | library/src/main/java/com/vks/RoundedDrawable.kt:544-547 | only the oval flag changes |
| RoundedDrawables.RoundedDrawable.OnBoundsChange | library/src/main/java/com/vks/RoundedDrawable.kt:225-231 | new bounds, and a shader layout recomputed from them |
| RoundedDrawables.RoundedDrawable.UpdateShaderMatrix | library/src/main/java/com/vks/RoundedDrawable.kt:93-223 | the shader layout is recomputed from the current scale type, border width and bounds, and nothing else changes |
| RoundedDrawables.SquareCornersMeaning | library/src/main/java/com/vks/RoundedDrawable.kt:297-319 | a corner gets a patch iff its flag is clear; there are at most four patches, and none when every corner is rounded |
| RoundedDrawables.RoundedDrawable.RedrawBitmapForSquareCorners | library/src/main/java/com/vks/RoundedDrawable.kt:281-320 | the method emits the patches of the specification, in corner order, after the two guards |
| RoundedDrawables.RoundedDrawable.RedrawBorderForSquareCorners | library/src/main/java/com/vks/RoundedDrawable.kt:322-376 | the method emits a pair of border segments per square corner, after the same guards |
| RoundedDrawables.OvalSuppressesCorners | library/src/main/java/com/vks/RoundedDrawable.kt:246-252 | oval mode draws only ovals: the bitmap oval, plus a border oval iff the border width is positive |
| RoundedDrawables.RoundRectPatches | library/src/main/java/com/vks/RoundedDrawable.kt:253-277 | with no rounded corner: a plain rect and a border rect. Otherwise a round rect of the shared radius and, when that radius is non-zero, a square patch exactly at each non-rounded corner; every patch carries the rect and the non-zero radius |
| RoundedDrawables.AllGuardIsHarmless | library/src/main/java/com/vks/RoundedDrawable.kt:282-285 | once `any` held, `all`'s early return never fires, and when every corner is rounded or the radius is zero there are no square patches, as the guard its comment describes would give |
| RoundedDrawables.DrawRebuildsShaderOnce | library/src/main/java/com/vks/RoundedDrawable.kt:234-244 | `ShaderOf` and `Drawn` state that `draw` installs a shader iff the rebuild flag is set, with the local matrix iff both modes are CLAMP. The lemma proves the flag is cleared and nothing else changes, so a second draw installs none and draws the same shapes |
| RoundedDrawables.RoundedDrawable.Draw | library/src/main/java/com/vks/RoundedDrawable.kt:233-279 | the method returns the shader and the shapes of the specification and clears the rebuild flag |
| RoundedDrawables.PatchCoversCorner | library/src/main/java/com/vks/RoundedDrawable.kt:297-319 | each intended patch is the radius × radius square flush with its corner's two edges |
| RoundedDrawables.TopRightPatchAsWritten | library/src/main/java/com/vks/RoundedDrawable.kt:302-305 | the written top-right patch differs from the intended one exactly when the rectangle's top is not 0 |
| RoundedDrawables.ConvertedIsFullyConverted | library/src/main/java/com/vks/RoundedDrawable.kt:607-632 | `fromDrawable` rounds every leaf it can and keeps the number of layers |
| RoundedDrawables.ConvertedFixesConverted | library/src/main/java/com/vks/RoundedDrawable.kt:609-611 | a tree that is already converted is returned unchanged |
| RoundedDrawables.ConvertedIdempotent | library/src/main/java/com/vks/RoundedDrawable.kt:607-632 | converting twice is converting once |
| RoundedDrawables.FromDrawable | library/src/main/java/com/vks/RoundedDrawable.kt:607-632 | the layer loop returns the converted tree (each layer replaced in its own place), null for null |
| RoundedDrawables.IndexOfId | library/src/main/java/com/vks/RoundedDrawable.kt:620 | the index `setDrawableByLayerId` writes to: the first layer carrying the id, or none |
| RoundedDrawables.LayerIdsAsWritten | library/src/main/java/com/vks/RoundedDrawable.kt:618-621 | with two id-less layers the loop as written stores both conversions into the first layer |
| RoundedDrawables.DistinctIdsConvertInPlace | library/src/main/java/com/vks/RoundedDrawable.kt:618-621 | with distinct layer ids the loop as written gives the converted tree |
| RoundedImageViews.ParseTileModeInverts | library/src/main/java/com/vks/RoundedImageView.kt:433-440 | `parseTileMode` inverts the attribute codes 0, 1, 2 and gives null for every other value, "undefined" included |
| RoundedImageViews.ScaleTypeIndexRoundTrip | library/src/main/java/com/vks/RoundedImageView.kt:121-127 | indexes 0 to 7 select the eight scale types one-to-one, a negative index means FIT_CENTER, and 8 or more fails |
| RoundedImageViews.ScaleTypeReachesDrawable | library/src/main/java/com/vks/RoundedImageView.kt:211-223 | on a view showing a rounded drawable, a new scale type gives the platform view MATRIX or FIT_XY and reaches the drawable, error or not; it throws exactly when the radius slots are not acceptable, and setting the same type again changes nothing |
| RoundedImageViews.NormalisedRadiiMeaning | library/src/main/java/com/vks/RoundedImageView.kt:128-163 | the slots are finite and not negative. When some per-corner attribute is given, each slot is its own attribute with negatives made 0; otherwise all four take the uniform attribute, or 0 when it is negative |
| RoundedImageViews.InflatedStateMeaning | library/src/main/java/com/vks/RoundedImageView.kt:114-200 | construction fails only for a scale-type index of 8 or more. The border width is not negative, a missing stroke colour is black and the tile modes stay CLAMP. No attributes gives the default view |
| RoundedImageViews.RoundedImageView.constructor | library/src/main/java/com/vks/RoundedImageView.kt:111 | the one-argument constructor gives the default view |
| RoundedImageViews.RoundedImageView.Inflated | library/src/main/java/com/vks/RoundedImageView.kt:114-200 | the attribute constructor gives the specified inflated view |
| RoundedImageViews.RoundedImageView.ApplyAttributes | library/src/main/java/com/vks/RoundedImageView.kt:119-199 | the constructor body turns a default view into the inflated one |
| RoundedImageViews.RoundedImageView.NormaliseCornerRadii | library/src/main/java/com/vks/RoundedImageView.kt:128-163 | the two loops leave the slots holding the normalised radii |
| RoundedImageViews.RoundedImageView.ClampStatedRadii | library/src/main/java/com/vks/RoundedImageView.kt:130-151 | the first loop clamps each slot and reports whether any per-corner attribute was given |
| RoundedImageViews.RoundedImageView.FillCornerRadii | library/src/main/java/com/vks/RoundedImageView.kt:157-162 | the second loop writes the override into all four slots |
| RoundedImageViews.RoundedImageView.ApplyStrokeAndFlags | library/src/main/java/com/vks/RoundedImageView.kt:165-178 | a negative stroke width becomes 0, a missing stroke colour black, and the two flags are read |
| RoundedImageViews.Inflate | library/src/main/java/com/vks/RoundedImageView.kt:114-127 | construction yields a view iff the scale-type index is in bounds, and that view is the inflated one |
| RoundedImageViews.FirstPositiveMeaning | library/src/main/java/com/vks/RoundedImageView.kt:87-95 | the `cornerRadius` getter is 0 iff no slot is positive, and otherwise the earliest positive slot |
| RoundedImageViews.UniformRadiusGetter | library/src/main/java/com/vks/RoundedImageView.kt:87-96 | after the uniform setter stored r, the getter gives r when r is positive and 0 otherwise |
| RoundedImageViews.RoundedImageView.GetCornerRadius | library/src/main/java/com/vks/RoundedImageView.kt:87-95 | the getter's loop returns the first positive slot |
| RoundedImageViews.RoundedImageView.SetCornerRadius | library/src/main/java/com/vks/RoundedImageView.kt:96 | the `cornerRadius` setter is the four-argument setter with r everywhere |
| RoundedImageViews.CornerSlotsMeaning | library/src/main/java/com/vks/RoundedImageView.kt:359-369 | corrected setter: it returns early only when the slots already hold the arguments, and exactly then when no slot is NaN. Otherwise each corner's slot gets the argument named after it |
| RoundedImageViews.HeldSlotsAreArguments | library/src/main/java/com/vks/RoundedImageView.kt:363-365 | slots that pass the early-return test hold the arguments in corner order |
| RoundedImageViews.ArgumentSlotsAreHeld | library/src/main/java/com/vks/RoundedImageView.kt:363-365 | slots that hold the arguments, with no NaN, pass the test |
| RoundedImageViews.CornerSlotsAsWrittenDiffers | library/src/main/java/com/vks/RoundedImageView.kt:363-369 | whenever the setter as written stores, `bottomLeft` lands in the bottom-right slot and `bottomRight` in the bottom-left one; it misses a change (slots 0, 0, 5, 0 and the call `(0, 0, 0, 5)`); it agrees with the corrected one when the two bottom arguments are equal |
| RoundedImageViews.RoundedImageView.HoldsCornerRadii | library/src/main/java/com/vks/RoundedImageView.kt:363-365 | the test holds iff the corrected setter returns early |
| RoundedImageViews.RoundedImageView.StoreCornerRadii | library/src/main/java/com/vks/RoundedImageView.kt:366-369 | corrected stores: each argument is stored in its own corner's slot (the source puts `bottomLeft` in slot 2, BOTTOM_RIGHT, and `bottomRight` in slot 3) |
| RoundedImageViews.RoundedImageView.SetCornerRadii | library/src/main/java/com/vks/RoundedImageView.kt:359-373 | the fields become the corrected four-argument setter's result, error included |
| RoundedImageViews.ViewCornerRadiiReachDrawable | library/src/main/java/com/vks/RoundedImageView.kt:359-373 | for the corrected setter: when it changes the slots of a view showing a rounded drawable, it throws iff the slots are not acceptable; otherwise the drawable's corners report exactly the arguments named after them |
| RoundedImageViews.RefreshedRounded | library/src/main/java/com/vks/RoundedImageView.kt:370-371 | refreshing a view that shows one rounded drawable pushes the view's attributes into it |
| RoundedImageViews.NothingToRefresh | library/src/main/java/com/vks/RoundedImageView.kt:313-316 | with no drawable and no background, the refresh changes nothing |
| RoundedImageViews.PushedMeaning | library/src/main/java/com/vks/RoundedImageView.kt:317-328 | pushing into one rounded drawable fails iff the slots are not acceptable; on success the drawable shows every attribute, each corner its own slot |
| RoundedImageViews.PushedIdempotent | library/src/main/java/com/vks/RoundedImageView.kt:317-328 | pushing the same attributes twice is pushing them once, error or not |
| RoundedImageViews.UpdatedMeaning | library/src/main/java/com/vks/RoundedImageView.kt:313-338 | `updateAttrs` on a tree fails iff the tree holds a rounded drawable and the slots are not acceptable; on success every rounded drawable shows the view's attributes |
| RoundedImageViews.UpdatedLayersMeaning | library/src/main/java/com/vks/RoundedImageView.kt:329-337 | the same for the layers from one index on, keeping their number |
| RoundedImageViews.UpdatedIdempotent | library/src/main/java/com/vks/RoundedImageView.kt:313-338 | updating a tree twice equals updating it once, so a drawable shared by two layers ends as if updated once |
| RoundedImageViews.UpdatedLayersIdempotent | library/src/main/java/com/vks/RoundedImageView.kt:329-337 | the same for the layer loop |
| RoundedImageViews.PushAttrs | library/src/main/java/com/vks/RoundedImageView.kt:317-328 | the chained setters and the radii produce the push specification |
| RoundedImageViews.UpdateTree | library/src/main/java/com/vks/RoundedImageView.kt:313-338 | the recursion produces the tree specification |
| RoundedImageViews.UpdateLayers | library/src/main/java/com/vks/RoundedImageView.kt:329-337 | the while-loop produces the layer specification and leaves at the first error |
| RoundedImageViews.RoundedImageView.UpdateAttrs | library/src/main/java/com/vks/RoundedImageView.kt:313-338 | a null drawable or a null tile mode is left alone; otherwise the tree is updated |
| RoundedImageViews.RoundedImageView.UpdateDrawableAttrs | library/src/main/java/com/vks/RoundedImageView.kt:275-277 | the shown drawable is updated |
| RoundedImageViews.RoundedImageView.UpdateBackgroundDrawableAttrs | library/src/main/java/com/vks/RoundedImageView.kt:279-286 | the background is converted (on request) and updated only when the view mutates its background |
| RoundedImageViews.RoundedImageView.Refresh | library/src/main/java/com/vks/RoundedImageView.kt:370-371 | the drawable, then the background; an error stops the second |
| RoundedImageViews.RoundedImageView.SetScaleType | library/src/main/java/com/vks/RoundedImageView.kt:211-224 | an unchanged scale type does nothing; a new one reaches the platform view as MATRIX or FIT_XY and the drawables as itself |
| RoundedImageViews.RoundedImageView.SetImageDrawable | library/src/main/java/com/vks/RoundedImageView.kt:226-231 | the resource id is cleared and the converted drawable is shown and updated |
| RoundedImageViews.RoundedImageView.SetImageBitmap | library/src/main/java/com/vks/RoundedImageView.kt:233-238 | a fresh rounded drawable of the bitmap is shown and updated |
| RoundedImageViews.RoundedImageView.SetImageResource | library/src/main/java/com/vks/RoundedImageView.kt:240-247 | the same resource id does nothing; a failed lookup resets the id to 0 |
| RoundedImageViews.RoundedImageView.ResolveResource | library/src/main/java/com/vks/RoundedImageView.kt:254-268 | the looked-up drawable is converted; a failed lookup clears the resource id |
| RoundedImageViews.RoundedImageView.SetBorderWidth | library/src/main/java/com/vks/RoundedImageView.kt:383-389 | an unchanged width (primitive `==`) does nothing |
| RoundedImageViews.RoundedImageView.SetBorderColor | library/src/main/java/com/vks/RoundedImageView.kt:391-400 | the same colours do nothing; null becomes black |
| RoundedImageViews.RoundedImageView.SetBorderColorInt | library/src/main/java/com/vks/RoundedImageView.kt:98-100 | the `borderColor` setter passes `valueOf(color)` on |
| RoundedImageViews.RoundedImageView.SetOval | library/src/main/java/com/vks/RoundedImageView.kt:102-109 | the `isOval` setter always refreshes |
| RoundedImageViews.RoundedImageView.MutateBackground | library/src/main/java/com/vks/RoundedImageView.kt:406-411 | an unchanged flag does nothing; a change converts and updates the background |
| RoundViewDelegates.Obtained | library/src/main/java/com/vks/RoundViewDelegate.kt:48-78 | missing attributes take their defaults: the press colours the `MAX_VALUE` sentinel, colours transparent, ripple on |
| RoundViewDelegates.RoundViewDelegate.constructor | library/src/main/java/com/vks/RoundViewDelegate.kt:44-46 | the delegate reads its attributes and sets no background yet |
| RoundViewDelegates.ShapeForMeaning | library/src/main/java/com/vks/RoundViewDelegate.kt:280-300 | the shape has the given colours and stroke width. It uses per-corner radii, each corner's value as its x and y radius in TL, TR, BR, BL order, iff some corner radius is positive; otherwise the uniform radius. It is dashed iff dash width and gap are both positive |
| RoundViewDelegates.RoundViewDelegate.SetDrawable | library/src/main/java/com/vks/RoundViewDelegate.kt:280-300 | the method configures that shape, writing the eight radii into `radiusArr` only when a corner radius is positive |
| RoundViewDelegates.PressedSelectorResolves | library/src/main/java/com/vks/RoundViewDelegate.kt:347-358 | the ripple colour list gives the pressed colour when pressed, focused or activated, and the normal colour otherwise |
| RoundViewDelegates.StateListResolves | library/src/main/java/com/vks/RoundViewDelegate.kt:312-322 | without the ripple, unpressed shows the normal shape. Pressed shows the pressed shape, whose unset press colours fall back to the normal ones; when neither press colour is set no entry matches, and the state list falls back to the wildcard entry, the normal shape |
| RoundViewDelegates.RippleKeepsSentinel | library/src/main/java/com/vks/RoundViewDelegate.kt:304-311 | the ripple path uses the raw press colour, so an unset one gives the sentinel as the pressed ripple colour |
| RoundViewDelegates.TextColorsResolve | library/src/main/java/com/vks/RoundViewDelegate.kt:332-344 | the installed text colours give the current default colour unpressed and the pressed text colour pressed |
| RoundViewDelegates.RoundViewDelegate.SetBgSelector | library/src/main/java/com/vks/RoundViewDelegate.kt:302-345 | the ripple is built iff SDK ≥ 21 and the ripple is enabled, else the state list; text colours change only for a text view with a pressed text colour; the configuration is unchanged |
| RoundViewDelegates.RoundViewDelegate.RippleBackground | library/src/main/java/com/vks/RoundViewDelegate.kt:304-311 | the ripple over the normal shape with the pressed-colour selector |
| RoundViewDelegates.RoundViewDelegate.StateListBackground | library/src/main/java/com/vks/RoundViewDelegate.kt:312-330 | the state list built by successive `addState` calls |
| RoundViewDelegates.RoundViewDelegate.SetBackgroundColor | library/src/main/java/com/vks/RoundViewDelegate.kt:80-83 | the colour is stored, nothing else changes, and the background is rebuilt |
| RoundViewDelegates.RoundViewDelegate.SetBackgroundPressColor | library/src/main/java/com/vks/RoundViewDelegate.kt:85-88 | likewise for the press colour |
| RoundViewDelegates.RoundViewDelegate.SetCornerRadius | library/src/main/java/com/vks/RoundViewDelegate.kt:90-93 | the uniform radius becomes the converted value |
| RoundViewDelegates.RoundViewDelegate.SetCornerRadiusLeft | library/src/main/java/com/vks/RoundViewDelegate.kt:95-99 | TL and BL become the converted value, nothing else changes |
| RoundViewDelegates.RoundViewDelegate.SetCornerRadiusRight | library/src/main/java/com/vks/RoundViewDelegate.kt:101-105 | TR and BR become the converted value |
| RoundViewDelegates.RoundViewDelegate.SetCornerRadiusTop | library/src/main/java/com/vks/RoundViewDelegate.kt:107-111 | TL and TR become the converted value |
| RoundViewDelegates.RoundViewDelegate.SetCornerRadiusBottom | library/src/main/java/com/vks/RoundViewDelegate.kt:113-117 | BL and BR become the converted value |
| RoundViewDelegates.LayoutActionsSettle | library/src/main/java/com/vks/RoundViewDelegate.kt:90-117 | repeating a radius setter with the same value changes nothing more |
| RoundViewDelegates.PairedSettersCompose | library/src/main/java/com/vks/RoundViewDelegate.kt:95-117 | left then right with one radius equals right then left, and top then bottom: all four corners hold the converted radius, the uniform radius is kept, and per-corner radii are used exactly when that radius is positive |
| RoundViewDelegates.RoundViewDelegate.SetStrokeWidth | library/src/main/java/com/vks/RoundViewDelegate.kt:119-122 | the stroke width becomes the converted value |
| RoundViewDelegates.RoundViewDelegate.SetDashWidth | library/src/main/java/com/vks/RoundViewDelegate.kt:124-127 | the dash width is stored |
| RoundViewDelegates.RoundViewDelegate.SetDashGap | library/src/main/java/com/vks/RoundViewDelegate.kt:129-132 | the dash gap is stored |
| RoundViewDelegates.RoundViewDelegate.SetStrokeColor | library/src/main/java/com/vks/RoundViewDelegate.kt:134-137 | the stroke colour is stored |
| RoundViewDelegates.RoundViewDelegate.SetStrokePressColor | library/src/main/java/com/vks/RoundViewDelegate.kt:139-142 | the stroke press colour is stored |
| RoundViewDelegates.RoundViewDelegate.SetTextPressColor | library/src/main/java/com/vks/RoundViewDelegate.kt:144-147 | the text press colour is stored |
| RoundViewDelegates.RoundViewDelegate.SetRadiusHalfHeight | library/src/main/java/com/vks/RoundViewDelegate.kt:149-152 | the flag is stored |
| RoundViewDelegates.RoundViewDelegate.SetRadiusHalfHeightLeft | library/src/main/java/com/vks/RoundViewDelegate.kt:154-157 | the flag is stored |
| RoundViewDelegates.RoundViewDelegate.SetRadiusHalfHeightRight | library/src/main/java/com/vks/RoundViewDelegate.kt:159-162 | the flag is stored |
| RoundViewDelegates.RoundViewDelegate.SetRadiusHalfWidthTop | library/src/main/java/com/vks/RoundViewDelegate.kt:164-167 | the flag is stored |
| RoundViewDelegates.RoundViewDelegate.SetRadiusHalfWidthBottom | library/src/main/java/com/vks/RoundViewDelegate.kt:169-172 | the flag is stored |
| RoundViewDelegates.RoundViewDelegate.SetWidthHeightEqual | library/src/main/java/com/vks/RoundViewDelegate.kt:174-177 | the flag is stored |
| RoundViewDelegates.RoundViewDelegate.SetCornerRadiusTL | library/src/main/java/com/vks/RoundViewDelegate.kt:179-182 | the raw value is stored, not converted |
| RoundViewDelegates.RoundViewDelegate.SetCornerRadiusTR | library/src/main/java/com/vks/RoundViewDelegate.kt:184-187 | the raw value is stored |
| RoundViewDelegates.RoundViewDelegate.SetCornerRadiusBL | library/src/main/java/com/vks/RoundViewDelegate.kt:189-192 | the raw value is stored |
| RoundViewDelegates.RoundViewDelegate.SetCornerRadiusBR | library/src/main/java/com/vks/RoundViewDelegate.kt:194-197 | the raw value is stored |
| RoundViewDelegates.FirstHalfFlag | library/src/main/java/com/vks/RoundTextView.kt:32-38 | the first set half-size flag, worked out in the order the `when` tests them |
| RoundViewDelegates.RoundViewDelegate.Perform | library/src/main/java/com/vks/RoundTextView.kt:32-39 | the chosen delegate call leaves the state `Performed` describes and a rebuilt background |
| RoundTextViews.OnMeasure | library/src/main/java/com/vks/RoundTextView.kt:20-28 | with the square flag and a known positive size, both specs are EXACTLY the larger side; otherwise the incoming specs pass through |
| RoundTextViews.OnLayoutCall | library/src/main/java/com/vks/RoundTextView.kt:32-39 | the call made is the one for the first set flag in the order half-height, left, right, top, bottom; with none set it only rebuilds. The height flags pass `height / 2` and the width flags `width / 2`, truncated |
| RoundTextViews.OnLayout | library/src/main/java/com/vks/RoundTextView.kt:30-40 | the text view's delegate ends in the state of that call, with a rebuilt background and text colours |
| RoundTextViews.RelayoutIsStable | library/src/main/java/com/vks/RoundTextView.kt:32-39 | a second layout at the same size makes the same call and changes nothing more |
| RoundTextViews.HalfHeightRadiusIsConverted | library/src/main/java/com/vks/RoundTextView.kt:33 | the half-height radius goes through `dp2px`, so the stored radius is `dp2px(height / 2)`: half the height only where the conversion leaves that value alone |
| RoundRelativeLayouts.OnMeasure | library/src/main/java/com/vks/RoundRelativeLayout.kt:14-22 | the same square measure rule |
| RoundRelativeLayouts.OnLayoutCall | library/src/main/java/com/vks/RoundRelativeLayout.kt:26-33 | the same flag priority and radii |
| RoundRelativeLayouts.SameRulesAsTextView | library/src/main/java/com/vks/RoundRelativeLayout.kt:14-34 | both views follow identical measure and layout rules, so the text view's lemmas hold for the layout |
| RoundRelativeLayouts.OnLayout | library/src/main/java/com/vks/RoundRelativeLayout.kt:24-34 | the layout's delegate ends in the state of the chosen call with a rebuilt background, and its text colours are untouched (it is not a text view) |

## Left out

- RoundedDrawables.RoundedDrawable.UpdateShaderMatrix: the scale and translate arithmetic through `Matrix` is not modelled. The method records only what the layout was computed from (scale type, border width, bounds); the rectangle it yields is an input of `draw`.
- Canvas, Paint and BitmapShader: `draw` emits abstract commands. A square patch or a border-segment pair is one command naming its corner; the rectangle the source paints for a patch is `PatchRectAsWritten`, and `PatchRect` is the square it is meant to cover (see Findings). So `Draw` and `RedrawBitmapForSquareCorners` emit the as-written patches.
- `invalidate()` and `invalidateSelf()` are not modelled. `view.background` and `setTextColor` are the delegate's `background` and `textColors` fields.
- `drawableToBitmap` (bitmap creation and drawing) is given as each plain drawable's optional snapshot. `toBitmap`, `getIntrinsicWidth/Height`, `getOpacity`, alpha, dither, filter and colour-filter overrides of `RoundedDrawable` have no rule beyond the platform; they are not modelled.
- `isStateful` and `onStateChange` of `RoundedDrawable` (border paint colour resolution) are not modelled.
- `applyColorMod`, `setColorFilter` and `drawableStateChanged` of the image view are not modelled; they mutate a drawable's colour filter only.
- Two private setters are not modelled: the tile-mode property setters of `RoundedImageView`, which no code path calls (the constructor discards `parseTileMode`'s results).
- Also not modelled: `setImageURI`, `setCornerRadiusDimen` and `setBorderWidth(resId)`. They read a platform resource and then call modelled setters.
- Layer ids are not part of `Drawable`. The as-written id-based replacement of `fromDrawable`'s loop is `ConvertedLayersAsWritten`, over a separate id sequence and for one level of layers (nested layers converted by `Converted`); see Findings.
- RoundedDrawables.FromDrawable: models the corrected loop that puts each converted layer back at its own index, not the source's `setDrawableByLayerId` (see Findings).
- RoundedDrawables.ConvertedIsFullyConverted: is proved for the corrected per-index replacement; with id-less or shared ids the source can leave convertible layers unconverted.
- RoundedDrawables.ConvertedFixesConverted: is proved for the corrected per-index replacement; with shared ids the source can copy one layer over another even in a converted tree.
- The drawable tree is a value. A drawable object present in two layers is updated twice in the source; `UpdatedIdempotent` shows that this gives the same result as one update.
- The super-constructor calls of `RoundedImageView` (the platform constructor calling the overridden `setScaleType` before the fields are initialised) are not modelled.
- The null-attribute crash of the two delegating views' constructors (`attrs!!`) is not modelled.
- Attribute reading through `obtainStyledAttributes` is an input record: for the image view with the source's defaults already applied, for the delegate with `None` for a missing attribute.
- `dp2px` is an uninterpreted `Int32 -> Int32` function. The float density and its rounding are not modelled.
- `Float` rounding, and `+0f` versus `-0f`, are not distinguished. `Int.toFloat()` is taken as exact.
- `ColorStateList` resolution is modelled as the first matching row. A colour list's identity is its rows. `getDefaultColor` is a parameter.
- `getBackgroundWithGlow` is private and unused; it is not modelled.
- The SDK level is a parameter. Setting the background through `view.background` or the deprecated `setBackgroundDrawable` gives the same result and is one assignment in the model.
- The delegate's getters return its fields. They are the components of `RoundViewDelegate.State()` and are not separate members.
- `MeasureSpec.makeMeasureSpec` packing is not modelled: `Exactly(size)` stands for the packed spec. The platform's own measure and layout passes are not modelled.
- RoundedImageViews.RoundedImageView.SetCornerRadii: models the corrected slot order, not the source's (see Findings); the as-written behaviour is `CornerSlotsAsWritten`.
- RoundedImageViews.RoundedImageView.StoreCornerRadii: models the corrected slot order (`bottomLeft` in slot BOTTOM_LEFT, `bottomRight` in slot BOTTOM_RIGHT), not the source's stores at lines 368-369 (see Findings).
- RoundedImageViews.ViewCornerRadiiReachDrawable: is proved for the corrected setter. With the source's stores, the drawable's bottom-right corner reports `bottomLeft` and its bottom-left corner `bottomRight`.

## Findings

| source | as written | input that shows it | evidently intended | confidence | as-written member | corrected member |
|---|---|---|---|---|---|---|
| library/src/main/java/com/vks/RoundedImageView.kt:363-369 | the early return compares slot BOTTOM_RIGHT (2) with `bottomRight` and slot BOTTOM_LEFT (3) with `bottomLeft`, but the stores put `bottomLeft` in slot 2 and `bottomRight` in slot 3 | slots `[0, 0, 5, 0]` and the call `setCornerRadius(0, 0, 0, 5)`: the setter returns early, though its stores would give `[0, 0, 0, 5]`; from `[0, 0, 0, 0]`, `setCornerRadius(0, 0, 5, 0)` leaves the bottom-left slot 0 | each argument stored in the slot of the corner it is named after, as the guard compares | not executed; high | RoundedImageViews.CornerSlotsAsWrittenDiffers | RoundedImageViews.CornerSlotsMeaning |
| library/src/main/java/com/vks/RoundedDrawable.kt:302-305 | the top-right square patch spans from `top` to `radius` rather than to `top + radius` | a drawable rectangle whose top is 10 and a radius of 20: the patch is 10 high instead of 20 (and inverted when the top exceeds the radius) | the radius × radius square at the top-right corner, like the other three | not executed; high | RoundedDrawables.TopRightPatchAsWritten | RoundedDrawables.PatchCoversCorner |
| library/src/main/java/com/vks/RoundedDrawable.kt:618-621 | each converted layer is stored with `setDrawableByLayerId(getId(i), …)`, which replaces the first layer carrying that id; layers added without an id all carry `NO_ID` | a layer drawable of two convertible layers without ids: the first ends as the conversion of the second and the second stays unconverted; two rounded layers end as two copies of the second | each layer's conversion stored in that layer's own place (`setDrawable(i, …)`) | not executed; medium | RoundedDrawables.LayerIdsAsWritten | RoundedDrawables.ConvertedIsFullyConverted |
