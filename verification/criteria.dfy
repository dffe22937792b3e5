/**
 * Spring Data Relational's `CriteriaDefinition`, which is not part of this
 * model's sources. A criteria tree is a single comparison `column <op> value`
 * or an AND-group made by `CriteriaDefinition.from`. Assumed of `from`: it
 * rejects a `null` element with `IllegalArgumentException` (the library's
 * `Assert.noNullElements`) and otherwise groups its operands in order; the
 * library's shortcuts for zero or one operand are not modelled, as they
 * change neither the comparisons nor their order.
 */
module Criteria {
  import opened Errors

  /** Bound values: the model only needs to tell them apart. */
  datatype Value = IntValue(i: int) | StringValue(s: string)

  datatype Comparator = Is | GreaterThanOrEquals | GreaterThan | LessThanOrEquals | LessThan

  datatype CriteriaDefinition =
    | Comparison(column: string, comparator: Comparator, value: Value)
    | AllOf(operands: seq<CriteriaDefinition>)

  /** `Criteria.where(column).<comparator>(value)`. */
  function Where(column: string, comparator: Comparator, value: Value): CriteriaDefinition {
    Comparison(column, comparator, value)
  }

  /** `CriteriaDefinition.from(parts)` for a list of non-null criteria. */
  function FromAll(parts: seq<CriteriaDefinition>): (r: CriteriaDefinition)
    ensures r.AllOf? && r.operands == parts
  {
    AllOf(parts)
  }

  const NullElementMessage: string := "Criteria must not contain null elements"

  /**
   * `CriteriaDefinition.from(first, second)` where `first` is a query's
   * criteria and may be `null`: a `null` element is rejected.
   */
  function FromPair(first: Option<CriteriaDefinition>, second: CriteriaDefinition): (r: Result<CriteriaDefinition>)
    ensures r.Ok? <==> first.Some?
    ensures r.Err? ==> r.error == IllegalArgument(NullElementMessage)
    ensures r.Ok? ==> r.value.AllOf? && r.value.operands == [first.value, second]
  {
    if first.None? then Err(IllegalArgument(NullElementMessage))
    else Ok(FromAll([first.value, second]))
  }

  /**
   * The comparisons of a criteria tree from left to right: the order in which
   * a renderer that walks the tree left to right emits their bind markers.
   */
  function Comparisons(c: CriteriaDefinition): seq<CriteriaDefinition>
    decreases c, 1
  {
    match c
    case Comparison(_, _, _) => [c]
    case AllOf(_) => OperandComparisons(c, 0)
  }

  /** The comparisons of the operands of the group `c` from the `i`-th on. */
  function OperandComparisons(c: CriteriaDefinition, i: nat): seq<CriteriaDefinition>
    requires c.AllOf? && i <= |c.operands|
    decreases c, 0, |c.operands| - i
  {
    if i == |c.operands| then []
    else
      assert c.operands[i] in c.operands;
      Comparisons(c.operands[i]) + OperandComparisons(c, i + 1)
  }

  /** The bound values in bind-marker order. */
  function Bindings(c: CriteriaDefinition): seq<Value> {
    var cs := Comparisons(c);
    seq(|cs|, i requires 0 <= i < |cs| => if cs[i].Comparison? then cs[i].value else IntValue(0))
  }

  /** A group of plain comparisons lists exactly those comparisons, in order. */
  lemma {:induction false} FlatGroupComparisons(parts: seq<CriteriaDefinition>)
    requires forall i :: 0 <= i < |parts| ==> parts[i].Comparison?
    ensures Comparisons(FromAll(parts)) == parts
  {
    FlatGroupSuffix(parts, 0);
  }

  lemma {:induction false} FlatGroupSuffix(parts: seq<CriteriaDefinition>, i: nat)
    requires i <= |parts|
    requires forall j :: 0 <= j < |parts| ==> parts[j].Comparison?
    ensures OperandComparisons(FromAll(parts), i) == parts[i..]
    decreases |parts| - i
  {
    if i < |parts| {
      FlatGroupSuffix(parts, i + 1);
      assert parts[i..] == [parts[i]] + parts[i + 1..];
    }
  }
}
