/**
 * The slice of Salespoint's Quantity that the inventory check relies on.
 * A quantity is an exact decimal amount; `real` is Dafny's exact rational type,
 * so sums never suffer binary floating-point rounding.
 */
module Quantities {
  type Quantity = real

  /** Quantity.NONE, the identity the per-product reduction starts from. */
  const NONE: Quantity := 0.0

  /** Quantity::add. */
  function Add(a: Quantity, b: Quantity): (r: Quantity)
  {
    a + b
  }

  /** Quantity.isZeroOrNegative(). */
  predicate IsZeroOrNegative(q: Quantity)
  {
    q <= NONE
  }

  /** `a.isLessThanOrEqualTo(b)`. */
  predicate IsLessThanOrEqualTo(a: Quantity, b: Quantity)
  {
    a <= b
  }
}
