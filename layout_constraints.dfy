/**
 * The native AutoLayout attribute type (`NSLayoutConstraint.Attribute` on
 * UIKit and AppKit), reduced to the cases the library produces. It stands in
 * for the toolkit's own type, which is not part of this model.
 */
module LayoutConstraints {
  import opened Platforms

  datatype LayoutConstraintAttribute =
    | Width | Height
    | Left | Right | Top | Bottom | Leading | Trailing
    | CenterX | CenterY | FirstBaseline | LastBaseline
    | LeftMargin | RightMargin | TopMargin | BottomMargin
    | LeadingMargin | TrailingMargin
    | CenterXWithinMargins | CenterYWithinMargins

  predicate IsMarginRelative(n: LayoutConstraintAttribute) {
    || n.LeftMargin? || n.RightMargin? || n.TopMargin? || n.BottomMargin?
    || n.LeadingMargin? || n.TrailingMargin?
    || n.CenterXWithinMargins? || n.CenterYWithinMargins?
  }

  /**
   * Whether the toolkit offers attribute `n` on platform `p`. The margin
   * attributes exist only on the touch platforms; on macOS `firstBaseline`
   * exists only from 10.11 on, which `firstBaselineAvailable` says.
   */
  predicate Available(n: LayoutConstraintAttribute, p: Platform, firstBaselineAvailable: bool) {
    if IsTouchPlatform(p) then true
    else !IsMarginRelative(n) && (n.FirstBaseline? ==> firstBaselineAvailable)
  }
}
