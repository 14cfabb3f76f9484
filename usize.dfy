/** Rust's `usize` on a 64-bit target, and what a build does with a subtraction that goes below zero. */
module Usize {
  import opened Wrappers

  /** `usize::MAX` on a 64-bit target. */
  const MAX: nat := 0xFFFF_FFFF_FFFF_FFFF

  /** A debug build checks integer overflow and panics; a release build wraps modulo 2^64. */
  datatype Build = DebugBuild | ReleaseBuild

  /** `a - b` on two `usize` values. `None` is the debug build's panic
      "attempt to subtract with overflow"; otherwise the result is the
      difference modulo 2^64. */
  function Sub(a: nat, b: nat, build: Build): (r: Option<nat>)
    requires a <= MAX && b <= MAX
    ensures r.None? <==> build == DebugBuild && a < b
    ensures r.Some? ==> r.value <= MAX && (r.value + b) % (MAX + 1) == a
    ensures a >= b ==> r == Some(a - b)
  {
    if a >= b then Some(a - b)
    else if build == DebugBuild then None
    else Some(a - b + MAX + 1)
  }
}
