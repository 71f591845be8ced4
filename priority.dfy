/**
 * Constraint priorities: four named levels and a custom value. The toolkit
 * weight is a `Float` that the library only passes through, so it is
 * modelled as a `real`.
 */
module Priorities {

  datatype Priority = Custom(value: real) | Required | High | Medium | Low

  predicate IsNamed(p: Priority) {
    !p.Custom?
  }

  /** Position of a named level in the declared order, weakest first. */
  function Rank(p: Priority): nat
    requires IsNamed(p)
  {
    match p
    case Low => 0
    case Medium => 1
    case High => 2
    case Required => 3
  }

  /**
   * The toolkit weight of a priority. A custom value is returned as given,
   * with no clamping; a named level yields a weight in (0, 1000], and only
   * `Required` reaches the top of that range.
   */
  function LayoutPriority(p: Priority): (w: real)
    ensures p.Custom? ==> w == p.value
    ensures IsNamed(p) ==> 0.0 < w <= 1000.0
    ensures IsNamed(p) ==> (w == 1000.0 <==> p == Required)
  {
    match p
    case Custom(v) => v
    case Required => 1000.0
    case High => 750.0
    case Medium => 500.0
    case Low => 250.0
  }

  /** The named levels resolve to the library's fixed constants. */
  lemma NamedLevelConstants()
    ensures LayoutPriority(Required) == 1000.0
    ensures LayoutPriority(High) == 750.0
    ensures LayoutPriority(Medium) == 500.0
    ensures LayoutPriority(Low) == 250.0
  {
  }

  /** A named level outweighs another exactly when it ranks above it. */
  lemma NamedLevelsStrictlyOrdered(p: Priority, q: Priority)
    requires IsNamed(p) && IsNamed(q)
    ensures LayoutPriority(p) < LayoutPriority(q) <==> Rank(p) < Rank(q)
    ensures LayoutPriority(p) == LayoutPriority(q) <==> p == q
  {
  }
}
