/** Optional values; `None` stands for a value pandas would hold as NaN or that is absent. */
module Wrappers {

  datatype Option<+T> = None | Some(value: T)

  // Comparisons of two float64 values: every comparison with NaN is false.
  predicate Le(a: Option<real>, b: Option<real>) { a.Some? && b.Some? && a.value <= b.value }
  predicate Ge(a: Option<real>, b: Option<real>) { a.Some? && b.Some? && a.value >= b.value }
  predicate Lt(a: Option<real>, b: Option<real>) { a.Some? && b.Some? && a.value < b.value }
  predicate Gt(a: Option<real>, b: Option<real>) { a.Some? && b.Some? && a.value > b.value }

  function Min(a: int, b: int): int
  {
    if a <= b then a else b
  }
}
