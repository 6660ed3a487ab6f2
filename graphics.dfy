/**
 * Abstractions of the platform values the widgets compute with: 32-bit
 * integers, single-precision floats (only their comparisons), the image
 * scale types and shader tile modes, rectangles, colour state lists and
 * bitmaps.
 */
module Graphics {

  /** A nullable value. */
  datatype Option<T> = None | Some(value: T)
  {
    /** Kotlin's `?:`. */
    function GetOr(default: T): T {
      if Some? then value else default
    }
  }

  /** The outcome of a call that may throw. */
  datatype Result<T, E> = Ok(value: T) | Err(error: E)

  /** A Kotlin `Int`. */
  newtype Int32 = x: int | -0x8000_0000 <= x < 0x8000_0000

  /** `Integer.MAX_VALUE`, which the delegate uses as "no colour set". */
  const INT_MAX: Int32 := 0x7fff_ffff

  /** `Color.TRANSPARENT` and `Color.BLACK` as signed 32-bit ARGB values. */
  const TRANSPARENT: Int32 := 0
  const BLACK: Int32 := -0x0100_0000

  /** Kotlin's `x / 2` on `Int`, which truncates toward zero. */
  function Half(x: Int32): (q: Int32)
    ensures x >= 0 ==> 0 <= 2 * (q as int) <= x as int <= 2 * (q as int) + 1
    ensures x < 0 ==> 2 * (q as int) - 1 <= x as int <= 2 * (q as int) <= 0
  {
    if x >= 0 then x / 2 else (-((-(x as int)) / 2)) as Int32
  }

  /**
   * A Kotlin `Float`: a finite value (its rounding is not modelled), an
   * infinity or NaN. Structural equality is `Float.equals`, the equality a
   * `HashSet<Float>` uses (NaN equals NaN); `FEq` is the primitive `==`.
   */
  datatype Float = Num(v: real) | PosInf | NegInf | NaN

  const ZERO: Float := Num(0.0)

  /** The primitive `a == b` on floats: NaN is equal to nothing. */
  predicate FEq(a: Float, b: Float) {
    match a
    case Num(x) => b.Num? && b.v == x
    case PosInf => b.PosInf?
    case NegInf => b.NegInf?
    case NaN => false
  }

  /** The primitive `==` is `Float.equals` except that NaN equals nothing, itself included. */
  lemma FEqIsEquals(a: Float, b: Float)
    ensures FEq(a, b) <==> a == b && !a.NaN?
  {
  }

  /** The primitive `a == 0f`. */
  predicate IsZero(a: Float) {
    FEq(a, ZERO)
  }

  /** The primitive `a > 0`. */
  predicate Positive(a: Float) {
    (a.Num? && a.v > 0.0) || a.PosInf?
  }

  /** The primitive `a < 0`. */
  predicate Negative(a: Float) {
    (a.Num? && a.v < 0.0) || a.NegInf?
  }

  /** `Float.isInfinite(a) || Float.isNaN(a)`. */
  predicate NonFinite(a: Float) {
    !a.Num?
  }

  /** `Int.toFloat()`; rounding of magnitudes above 2^24 is not modelled. */
  function FromInt(i: Int32): (f: Float)
    ensures f.Num? && f.v == i as real
  {
    Num(i as real)
  }

  /** The contents of `ImageView.ScaleType`, in declaration order. */
  datatype ScaleType = Matrix | FitXY | FitStart | FitCenter | FitEnd | Center | CenterCrop | CenterInside

  /** `Shader.TileMode`. */
  datatype TileMode = Clamp | Repeat | Mirror

  /** An integer rectangle (a drawable's bounds). */
  datatype Rect = Rect(left: Int32, top: Int32, right: Int32, bottom: Int32)

  /** A float rectangle; only finite coordinates are modelled. */
  datatype RectF = RectF(left: real, top: real, right: real, bottom: real)
  {
    function Width(): real { right - left }
    function Height(): real { bottom - top }
  }

  /** The view states a colour state list or a state-list drawable is keyed on. */
  datatype ViewState = Pressed | Focused | Activated

  /** One entry of a state spec: `state_x` or `-state_x`. */
  datatype StateCond = Is(state: ViewState) | Not(state: ViewState)

  /** One row of a `ColorStateList`: a state spec and its colour. */
  datatype ColorEntry = ColorEntry(spec: seq<StateCond>, color: Int32)

  /** A `ColorStateList`, as its rows in order. */
  datatype ColorStateList = ColorStateList(entries: seq<ColorEntry>)

  /** `ColorStateList.valueOf(color)`: one row with the empty state spec. */
  function ValueOf(color: Int32): (csl: ColorStateList)
    ensures |csl.entries| == 1 && csl.entries[0].spec == [] && csl.entries[0].color == color
  {
    ColorStateList([ColorEntry([], color)])
  }

  /** A bitmap, identified by an id; its pixels are not modelled. */
  datatype Bitmap = Bitmap(id: nat, width: Int32, height: Int32)
}
