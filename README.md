# EasyPeasy attribute classifier and priority resolver

A Dafny model of the two self-contained pieces of EasyPeasy, a declarative
AutoLayout DSL for iOS, tvOS and macOS:

- `ReferenceAttribute`, the library's closed enumeration of layout
  attributes (twelve cases everywhere, eight margin-relative cases more on
  iOS and tvOS), with its four derived mappings: `opposite`,
  `layoutAttribute` (the native AutoLayout attribute), `shouldInvertConstant`
  and `signatureString` (the axis tag `"h_"` or `"v_"`).
- `Priority`, four named levels and a custom value, with `layoutPriority()`.

Files:

- `platforms.dfy` — module `Platforms`: the build target (`IOS`, `TvOS`,
  `MacOS`), which stands for the source's `#if os(iOS) || os(tvOS)` blocks.
- `layout_constraints.dfy` — module `LayoutConstraints`: a local stand-in for
  the toolkit's `NSLayoutConstraint.Attribute`, with the cases the library
  produces and which of them each platform offers.
- `reference_attribute.dfy` — module `ReferenceAttributes`: the enumeration,
  its mappings and the lemmas relating them.
- `priority.dfy` — module `Priorities`: the priority enumeration and its
  resolver.

All margin-relative cases are present in the Dafny datatype; the predicate
`ExistsOn(a, p)` marks them as existing only in touch-platform builds, and
the one mapping whose result depends on the platform (`LayoutAttribute`)
requires the case to exist in the build. The macOS `#available(OSX 10.11, *)`
check is the boolean parameter `firstBaselineAvailable`. To state what each
mapping means independently of its own table, the model adds reference
readings: `SideOf` (whether an attribute measures an extent or sits at the
near edge, the middle or the far edge of its axis), `AxisOf` (horizontal or
vertical), `IsDirectionRelative` (leading and trailing follow the reading
direction), `PlainCounterpart` (the plain attribute a margin variant is
measured like) and `Named` (the reference attribute whose name a native
attribute carries).

## Model

| member | source | states |
|---|---|---|
| `ReferenceAttributes.CasesExactly` | EasyPeasy/ReferenceAttribute.swift:29-55 | an attribute is a case of the build for a platform exactly when it is not margin-relative or the platform is iOS/tvOS |
| `ReferenceAttributes.CaseCount` | EasyPeasy/ReferenceAttribute.swift:31-55 | the enumeration has 12 cases on macOS and 20 on iOS/tvOS |
| `ReferenceAttributes.Opposite` | EasyPeasy/ReferenceAttribute.swift:59-80 | the opposite is the mirror of the attribute: margin-relative and reading-direction-relative exactly when the attribute is, on the same axis, itself exactly for dimensions, centres and baselines, otherwise at the other edge; together these force left↔right, top↔bottom, leading↔trailing and the same for the margin variants |
| `ReferenceAttributes.MirrorIsUnique` | EasyPeasy/ReferenceAttribute.swift:60-78 | any attribute that is a mirror of `a` in that sense is `Opposite(a)`, so the contract admits no other pairing |
| `ReferenceAttributes.OppositeInvolution` | EasyPeasy/ReferenceAttribute.swift:59-79 | taking the opposite twice gives back the attribute |
| `ReferenceAttributes.OppositeFixedPoints` | EasyPeasy/ReferenceAttribute.swift:60-78 | the opposite equals the attribute exactly for width, height, centerX, centerY, both baselines and both within-margins centres |
| `ReferenceAttributes.OppositePermutesClosedSet` | EasyPeasy/ReferenceAttribute.swift:59-79 | on any set of cases closed under the opposite, the opposite maps that set onto itself |
| `ReferenceAttributes.OppositePermutesCases` | EasyPeasy/ReferenceAttribute.swift:46-79 | the opposite is a permutation of each platform's case set, so it never produces a case the build lacks |
| `ReferenceAttributes.OppositeKeepsAxis` | EasyPeasy/ReferenceAttribute.swift:59-159 | an attribute and its opposite have the same axis signature |
| `ReferenceAttributes.LayoutAttribute` | EasyPeasy/ReferenceAttribute.swift:84-118 | the native attribute is one the toolkit offers on that platform and has the attribute's own name, except on macOS before 10.11 where the first baseline becomes the last baseline |
| `ReferenceAttributes.LayoutAttributeInjective` | EasyPeasy/ReferenceAttribute.swift:84-118 | wherever the first baseline is available, distinct cases map to distinct native attributes |
| `ReferenceAttributes.FirstBaselineFallback` | EasyPeasy/ReferenceAttribute.swift:97-105 | on macOS before 10.11 the first and last baselines map to the same native attribute, so two distinct cases share a native attribute there |
| `ReferenceAttributes.ShouldInvertConstant` | EasyPeasy/ReferenceAttribute.swift:124-135 | the constant is negated exactly for the attributes at the far edge of their axis |
| `ReferenceAttributes.InvertedAttributes` | EasyPeasy/ReferenceAttribute.swift:124-135 | the negated cases are exactly right, trailing, bottom, lastBaseline, rightMargin, trailingMargin and bottomMargin |
| `ReferenceAttributes.OppositePairInvertsOnce` | EasyPeasy/ReferenceAttribute.swift:60-132 | when an attribute differs from its opposite, exactly one of the two has its constant negated |
| `ReferenceAttributes.SignatureString` | EasyPeasy/ReferenceAttribute.swift:145-160 | the signature is `"h_"` for the horizontal attributes (width, left, right, leading, trailing, centerX and their margin variants) and `"v_"` for the vertical ones (height, top, bottom, centerY, both baselines and their margin variants) |
| `ReferenceAttributes.MarginMatchesPlain` | EasyPeasy/ReferenceAttribute.swift:67-158 | a margin variant has the axis tag, side and sign handling of its plain counterpart, and its opposite is the margin variant of the plain opposite |
| `ReferenceAttributes.DimensionSignatures` | EasyPeasy/ReferenceAttribute.swift:147-152 | width is horizontal (`"h_"`) and height vertical (`"v_"`) |
| `Priorities.LayoutPriority` | EasyPeasy/Priority.swift:30-38 | a custom value is returned unchanged with no range check; a named level yields a weight in (0, 1000], and 1000 only for `required` |
| `Priorities.NamedLevelConstants` | EasyPeasy/Priority.swift:33-36 | required, high, medium and low resolve to 1000, 750, 500 and 250 |
| `Priorities.NamedLevelsStrictlyOrdered` | EasyPeasy/Priority.swift:33-36 | one named level weighs less than another exactly when it ranks lower in required > high > medium > low, and distinct levels have distinct weights |

## Left out

- EasyPeasy/UIView+Easy.swift (method swizzling in `initialize()`, the trait-collection hook that calls `easy.reload()`) is UI-framework lifecycle glue; it and the constraint builder that consumes these mappings are not part of this model.
- The toolkit's own attribute type is replaced by the local `LayoutConstraintAttribute`, which has only the cases the library returns; the Swift-version `typealias` choice between `NSLayoutConstraint.Attribute` and `NSLayoutAttribute` has no behavioural effect and is not modelled.
- `Priorities.LayoutPriority`: the weight is a Swift `Float`; it is modelled as `real`, since the code only passes it through and never computes with it, so IEEE rounding, NaN and infinities are not captured.
- Custom priorities are not bounded to [0, 1000]: the code returns them unchanged, and the model follows the code rather than a description of the resolver as yielding weights in that range.
