/**
 * The build targets the library is compiled for. Which cases the attribute
 * enumerations have depends on the target: the margin-relative attributes
 * exist only on the touch platforms (iOS and tvOS).
 */
module Platforms {

  datatype Platform = IOS | TvOS | MacOS

  /** True on the targets whose builds contain the margin-relative attributes. */
  predicate IsTouchPlatform(p: Platform) {
    p.IOS? || p.TvOS?
  }
}
