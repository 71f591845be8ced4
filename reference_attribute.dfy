/**
 * The library's own enumeration of layout attributes and the four facts
 * derived from each case: its opposite, the native AutoLayout attribute it
 * stands for, whether its constant is negated, and its axis signature.
 */
module ReferenceAttributes {
  import opened Platforms
  import LC = LayoutConstraints

  /**
   * Dimension attributes (width, height), position attributes, and the
   * margin-relative position attributes that only touch-platform builds have.
   */
  datatype ReferenceAttribute =
    | Width | Height
    | Left | Right | Top | Bottom | Leading | Trailing
    | CenterX | CenterY | FirstBaseline | LastBaseline
    | LeftMargin | RightMargin | TopMargin | BottomMargin
    | LeadingMargin | TrailingMargin
    | CenterXWithinMargins | CenterYWithinMargins

  predicate IsMarginRelative(a: ReferenceAttribute) {
    || a.LeftMargin? || a.RightMargin? || a.TopMargin? || a.BottomMargin?
    || a.LeadingMargin? || a.TrailingMargin?
    || a.CenterXWithinMargins? || a.CenterYWithinMargins?
  }

  /** Whether the build for platform `p` has case `a`. */
  predicate ExistsOn(a: ReferenceAttribute, p: Platform) {
    IsTouchPlatform(p) || !IsMarginRelative(a)
  }

  /** The twelve cases every build has. */
  function CommonCases(): set<ReferenceAttribute> {
    {Width, Height, Left, Right, Top, Bottom, Leading, Trailing,
     CenterX, CenterY, FirstBaseline, LastBaseline}
  }

  /** The eight margin-relative cases of the touch-platform builds. */
  function MarginCases(): set<ReferenceAttribute> {
    {LeftMargin, RightMargin, TopMargin, BottomMargin, LeadingMargin,
     TrailingMargin, CenterXWithinMargins, CenterYWithinMargins}
  }

  /** The cases of the enumeration in the build for platform `p`. */
  function Cases(p: Platform): set<ReferenceAttribute> {
    if IsTouchPlatform(p) then CommonCases() + MarginCases() else CommonCases()
  }

  /**
   * An attribute is a case of the build for `p` exactly when it exists on
   * `p`: the plain cases everywhere, the margin cases on the touch platforms.
   */
  lemma CasesExactly(p: Platform)
    ensures forall a :: a in Cases(p) <==> ExistsOn(a, p)
  {
    assert forall a :: a in MarginCases() <==> IsMarginRelative(a);
  }

  /** Twelve cases on every platform, and eight more on iOS and tvOS. */
  lemma CaseCount(p: Platform)
    ensures |Cases(p)| == if IsTouchPlatform(p) then 20 else 12
  {
    assert |CommonCases()| == 12;
    assert |MarginCases()| == 8;
    assert CommonCases() * MarginCases() == {};
  }

  /** Where along its axis an attribute sits on the view it belongs to. */
  datatype Side = Extent | NearEdge | Middle | FarEdge

  /**
   * The side of each attribute: width and height measure an extent; left,
   * leading, top and the first baseline sit at the near edge; right,
   * trailing, bottom and the last baseline at the far edge; the centres in
   * the middle. Margin variants sit where their plain counterparts do.
   */
  function SideOf(a: ReferenceAttribute): Side {
    match a
    case Width | Height => Extent
    case Left | Leading | Top | FirstBaseline | LeftMargin | LeadingMargin | TopMargin => NearEdge
    case Right | Trailing | Bottom | LastBaseline | RightMargin | TrailingMargin | BottomMargin => FarEdge
    case CenterX | CenterY | CenterXWithinMargins | CenterYWithinMargins => Middle
  }

  /**
   * The plain attribute a margin variant is measured like: the margin
   * variants map to their plain counterparts, every other case to itself.
   */
  function PlainCounterpart(a: ReferenceAttribute): ReferenceAttribute {
    match a
    case LeftMargin => Left
    case RightMargin => Right
    case TopMargin => Top
    case BottomMargin => Bottom
    case LeadingMargin => Leading
    case TrailingMargin => Trailing
    case CenterXWithinMargins => CenterX
    case CenterYWithinMargins => CenterY
    case _ => a
  }

  /** The two axes of a layout. */
  datatype Axis = Horizontal | Vertical

  /**
   * The axis an attribute applies to: width and the attributes placed along
   * the x direction are horizontal, height and those placed along the y
   * direction (baselines included) are vertical; a margin variant lies on
   * the axis of its plain counterpart.
   */
  function AxisOf(a: ReferenceAttribute): Axis {
    match PlainCounterpart(a)
    case Width | Left | Right | Leading | Trailing | CenterX => Horizontal
    case _ => Vertical
  }

  /** Leading and trailing follow the reading direction instead of a fixed side. */
  predicate IsDirectionRelative(a: ReferenceAttribute) {
    PlainCounterpart(a) in {Leading, Trailing}
  }

  /**
   * What makes `r` the mirror of `a`: `r` is margin-relative exactly when
   * `a` is (so it exists on the same platforms), follows the reading
   * direction exactly when `a` does, and lies on the same axis; the
   * baselines are fixed; `r` is `a` itself exactly for the extents, the
   * centres and the baselines, and otherwise sits at the other edge.
   */
  predicate IsMirrorOf(a: ReferenceAttribute, r: ReferenceAttribute) {
    && IsMarginRelative(r) == IsMarginRelative(a)
    && IsDirectionRelative(r) == IsDirectionRelative(a)
    && AxisOf(r) == AxisOf(a)
    && (r in {FirstBaseline, LastBaseline}) == (a in {FirstBaseline, LastBaseline})
    && (r == a <==> SideOf(a) in {Extent, Middle} || a in {FirstBaseline, LastBaseline})
    && (r != a ==> SideOf(r) != SideOf(a) && SideOf(r) in {NearEdge, FarEdge})
  }

  /**
   * The mirror attribute on the same axis: left and right, top and bottom,
   * leading and trailing (and their margin variants) swap; every other case
   * is its own opposite.
   */
  function Opposite(a: ReferenceAttribute): (r: ReferenceAttribute)
    ensures IsMirrorOf(a, r)
  {
    match a
    case Left => Right
    case Right => Left
    case Top => Bottom
    case Bottom => Top
    case Leading => Trailing
    case Trailing => Leading
    case LeftMargin => RightMargin
    case RightMargin => LeftMargin
    case TopMargin => BottomMargin
    case BottomMargin => TopMargin
    case LeadingMargin => TrailingMargin
    case TrailingMargin => LeadingMargin
    case CenterXWithinMargins | CenterYWithinMargins => a
    case Width | Height | CenterX | CenterY | FirstBaseline | LastBaseline => a
  }

  /**
   * The reference attribute whose name a native attribute carries; it is
   * the independent reading against which `LayoutAttribute` is checked.
   */
  function Named(n: LC.LayoutConstraintAttribute): ReferenceAttribute {
    match n
    case Width => Width
    case Height => Height
    case Left => Left
    case Right => Right
    case Top => Top
    case Bottom => Bottom
    case Leading => Leading
    case Trailing => Trailing
    case CenterX => CenterX
    case CenterY => CenterY
    case FirstBaseline => FirstBaseline
    case LastBaseline => LastBaseline
    case LeftMargin => LeftMargin
    case RightMargin => RightMargin
    case TopMargin => TopMargin
    case BottomMargin => BottomMargin
    case LeadingMargin => LeadingMargin
    case TrailingMargin => TrailingMargin
    case CenterXWithinMargins => CenterXWithinMargins
    case CenterYWithinMargins => CenterYWithinMargins
  }

  /**
   * The native AutoLayout attribute of a case of the build for `p`.
   * `firstBaselineAvailable` is the outcome of the macOS 10.11 availability
   * check and is consulted only on macOS. The result is always an attribute
   * the toolkit offers there; it is the native attribute of the same name,
   * except that on macOS before 10.11 the first baseline falls back to the
   * last baseline.
   */
  function LayoutAttribute(a: ReferenceAttribute, p: Platform, firstBaselineAvailable: bool)
    : (n: LC.LayoutConstraintAttribute)
    requires ExistsOn(a, p)
    ensures LC.Available(n, p, firstBaselineAvailable)
    ensures Named(n) == a <==> !(p.MacOS? && !firstBaselineAvailable && a == FirstBaseline)
    ensures Named(n) != a ==> n == LC.LastBaseline
  {
    match a
    case Width => LC.Width
    case Height => LC.Height
    case Left => LC.Left
    case Right => LC.Right
    case Top => LC.Top
    case Bottom => LC.Bottom
    case Leading => LC.Leading
    case Trailing => LC.Trailing
    case CenterX => LC.CenterX
    case CenterY => LC.CenterY
    case LastBaseline => LC.LastBaseline
    case FirstBaseline =>
      if IsTouchPlatform(p) then LC.FirstBaseline
      else if firstBaselineAvailable then LC.FirstBaseline
      else LC.LastBaseline
    case LeftMargin => LC.LeftMargin
    case RightMargin => LC.RightMargin
    case TopMargin => LC.TopMargin
    case BottomMargin => LC.BottomMargin
    case LeadingMargin => LC.LeadingMargin
    case TrailingMargin => LC.TrailingMargin
    case CenterXWithinMargins => LC.CenterXWithinMargins
    case CenterYWithinMargins => LC.CenterYWithinMargins
  }

  /**
   * Whether the user's constant is negated: exactly for the attributes at
   * the far edge of their axis, so that a positive offset always points
   * into the view.
   */
  function ShouldInvertConstant(a: ReferenceAttribute): (b: bool)
    ensures b <==> SideOf(a) == FarEdge
  {
    match a
    case Width | Height | CenterX | CenterY => false
    case Left | Leading | Top | FirstBaseline => false
    case Right | Trailing | Bottom | LastBaseline => true
    case CenterXWithinMargins | CenterYWithinMargins => false
    case LeftMargin | LeadingMargin | TopMargin => false
    case RightMargin | TrailingMargin | BottomMargin => true
  }

  /**
   * The axis tag used to build constraint signatures: "h_" for the
   * horizontal attributes and "v_" for the vertical ones.
   */
  function SignatureString(a: ReferenceAttribute): (s: string)
    ensures s == "h_" || s == "v_"
    ensures s == (if AxisOf(a) == Horizontal then "h_" else "v_")
  {
    match a
    case Left | Leading | Right | Trailing | CenterX | Width => "h_"
    case Top | FirstBaseline | Bottom | LastBaseline | CenterY | Height => "v_"
    case LeftMargin | LeadingMargin | RightMargin | TrailingMargin | CenterXWithinMargins => "h_"
    case TopMargin | BottomMargin | CenterYWithinMargins => "v_"
  }

  /** The mirror of an attribute is unique, so it is the one `Opposite` returns. */
  lemma MirrorIsUnique(a: ReferenceAttribute, r: ReferenceAttribute)
    requires IsMirrorOf(a, r)
    ensures r == Opposite(a)
  {
  }

  /** `Opposite` is an involution. */
  lemma OppositeInvolution(a: ReferenceAttribute)
    ensures Opposite(Opposite(a)) == a
  {
  }

  /** The fixed points of `Opposite` are exactly the eight non-directional cases. */
  lemma OppositeFixedPoints(a: ReferenceAttribute)
    ensures Opposite(a) == a <==>
      a in {Width, Height, CenterX, CenterY, FirstBaseline, LastBaseline,
            CenterXWithinMargins, CenterYWithinMargins}
  {
  }

  /** An attribute and its opposite lie on the same axis. */
  lemma OppositeKeepsAxis(a: ReferenceAttribute)
    ensures SignatureString(Opposite(a)) == SignatureString(a)
  {
  }

  /** Width is horizontal, height is vertical. */
  lemma DimensionSignatures()
    ensures SignatureString(Width) == "h_"
    ensures SignatureString(Height) == "v_"
  {
  }

  /**
   * A margin variant behaves like its plain counterpart: same axis tag, same
   * side, same sign handling, and its opposite is the margin variant of the
   * plain opposite.
   */
  lemma MarginMatchesPlain(a: ReferenceAttribute)
    requires IsMarginRelative(a)
    ensures SignatureString(a) == SignatureString(PlainCounterpart(a))
    ensures SideOf(a) == SideOf(PlainCounterpart(a))
    ensures ShouldInvertConstant(a) == ShouldInvertConstant(PlainCounterpart(a))
    ensures PlainCounterpart(Opposite(a)) == Opposite(PlainCounterpart(a))
  {
  }

  /** The cases whose constant is negated, listed out. */
  lemma InvertedAttributes(a: ReferenceAttribute)
    ensures ShouldInvertConstant(a) <==>
      a in {Right, Trailing, Bottom, LastBaseline, RightMargin, TrailingMargin, BottomMargin}
  {
  }

  /** Of an attribute and its opposite, when they differ, exactly one is negated. */
  lemma OppositePairInvertsOnce(a: ReferenceAttribute)
    requires Opposite(a) != a
    ensures ShouldInvertConstant(a) != ShouldInvertConstant(Opposite(a))
  {
  }

  /** On any set of cases it maps into itself, `Opposite` is a permutation. */
  lemma OppositePermutesClosedSet(s: set<ReferenceAttribute>)
    requires forall a :: a in s ==> Opposite(a) in s
    ensures (set a | a in s :: Opposite(a)) == s
  {
    var image := set a | a in s :: Opposite(a);
    forall b | b in s ensures b in image {
      OppositeInvolution(b);
    }
  }

  /**
   * `Opposite` stays within the build's cases and reaches all of them: it is
   * a permutation of `Cases(p)`.
   */
  lemma OppositePermutesCases(p: Platform)
    ensures (set a | a in Cases(p) :: Opposite(a)) == Cases(p)
  {
    CasesExactly(p);
    OppositePermutesClosedSet(Cases(p));
  }

  /**
   * Wherever the first baseline is available, distinct cases map to
   * distinct native attributes.
   */
  lemma LayoutAttributeInjective(p: Platform, firstBaselineAvailable: bool, a: ReferenceAttribute, b: ReferenceAttribute)
    requires IsTouchPlatform(p) || firstBaselineAvailable
    requires ExistsOn(a, p) && ExistsOn(b, p)
    requires LayoutAttribute(a, p, firstBaselineAvailable) == LayoutAttribute(b, p, firstBaselineAvailable)
    ensures a == b
  {
  }

  /**
   * On macOS before 10.11 the first and last baselines share a native
   * attribute, so there two distinct cases map to the same one.
   */
  lemma FirstBaselineFallback()
    ensures LayoutAttribute(FirstBaseline, MacOS, false) == LayoutAttribute(LastBaseline, MacOS, false)
    ensures exists a, b :: a != b && ExistsOn(a, MacOS) && ExistsOn(b, MacOS)
                        && LayoutAttribute(a, MacOS, false) == LayoutAttribute(b, MacOS, false)
  {
    assert ExistsOn(FirstBaseline, MacOS) && ExistsOn(LastBaseline, MacOS);
  }
}
