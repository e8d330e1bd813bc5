/** Arithmetic on prices that every part of the bot shares. */
module Prices {
  import opened Wrappers

  /** The tolerance of every comparison of R multiples. */
  const R_EPSILON: real := 0.000001

  function Abs(x: real): real { if x >= 0.0 then x else -x }

  function Min(x: real, y: real): real { if x <= y then x else y }

  function Max(x: real, y: real): real { if x >= y then x else y }

  /** The gain per unit from price a to price b for this side: positive when b is ahead of a. */
  function Gain(direction: Direction, a: real, b: real): real { if direction == Buy then b - a else a - b }

  /** The price `distance` ahead of `from`, in this side's favour. */
  function Ahead(direction: Direction, from: real, distance: real): (r: real)
    ensures Gain(direction, from, r) == distance
  {
    if direction == Buy then from + distance else from - distance
  }
}
