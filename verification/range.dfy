/**
 * Spring Data's `Range`, which is not part of this model's sources: a pair
 * of bounds, each unbounded or bounded by a value, inclusive or exclusive.
 */
module Ranges {
  import opened Criteria

  datatype Bound = Unbounded | Bounded(inclusive: bool, value: Value) {

    predicate IsBounded() {
      Bounded?
    }
  }

  datatype Range = Range(lower: Bound, upper: Bound)

  function Inclusive(v: Value): Bound {
    Bounded(true, v)
  }

  function Exclusive(v: Value): Bound {
    Bounded(false, v)
  }
}
