/** time.Duration arithmetic: nanoseconds in a 64-bit signed integer, which wraps
    in multiplication, addition and shifts, and saturates in Time.Sub. */
module Durations {

  const MAX_DURATION: int := 0x7FFF_FFFF_FFFF_FFFF
  const MIN_DURATION: int := -0x8000_0000_0000_0000
  const TWO_64: int := 0x1_0000_0000_0000_0000

  const SECOND: int := 1_000_000_000
  const MINUTE: int := 60 * SECOND

  predicate IsDuration(x: int) {
    MIN_DURATION <= x <= MAX_DURATION
  }

  function Wrap(x: int): (r: int)
    ensures IsDuration(r)
    ensures IsDuration(x) ==> r == x
  {
    var m := x % TWO_64;
    if m > MAX_DURATION then m - TWO_64 else m
  }

  /** Time.Sub: the difference, clamped to what a Duration can hold. */
  function Sub(t: int, u: int): (r: int)
    ensures IsDuration(r)
  {
    if t - u > MAX_DURATION then MAX_DURATION
    else if t - u < MIN_DURATION then MIN_DURATION
    else t - u
  }

  function Min(a: int, b: int): int {
    if a < b then a else b
  }

  function Max(a: int, b: int): int {
    if a < b then b else a
  }

  function Sum(xs: seq<int>): int {
    if xs == [] then 0 else Sum(xs[..|xs| - 1]) + xs[|xs| - 1]
  }
}
