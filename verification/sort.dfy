/**
 * Spring Data's `Sort`, which is not part of this model's sources: a sort is
 * the ordered list of its orders. `Sort.and` concatenates, `isUnsorted` holds
 * of the empty list and iterating a sort visits its orders in list order.
 */
module Sorting {

  datatype Direction = Asc | Desc

  datatype Order = Order(property: string, direction: Direction, ignoreCase: bool)

  type Sort = seq<Order>

  function Unsorted(): Sort {
    []
  }

  /** `Sort.by(direction, properties...)`: one case-sensitive order per property. */
  function By(direction: Direction, properties: seq<string>): (s: Sort)
    ensures |s| == |properties|
    ensures forall i :: 0 <= i < |s| ==> s[i] == Order(properties[i], direction, false)
  {
    if properties == [] then [] else [Order(properties[0], direction, false)] + By(direction, properties[1..])
  }

  /** `this.and(other)`: the orders of `this` followed by those of `other`. */
  function And(s: Sort, other: Sort): (r: Sort)
    ensures |r| == |s| + |other|
    ensures r[..|s|] == s && r[|s|..] == other
  {
    s + other
  }

  predicate IsUnsorted(s: Sort) {
    s == []
  }

  predicate IsSorted(s: Sort) {
    !IsUnsorted(s)
  }
}
