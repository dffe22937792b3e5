/**
 * `Boundary`: an ordered list of scopes, each a `(property, Range)` pair,
 * that a query ANDs into its criteria. A scope validates its property name
 * when it is built; the boundary itself is a list that `and` extends in place.
 */
module Boundaries {
  import opened Errors
  import opened Criteria
  import opened Ranges
  import opened SafeIdentifier
  import SqlGroup

  const InvalidBoundaryFieldMessage: string :=
    "boundary fields that are not marked as unsafe must only consist of digits, letter, '.', '_', and ''. "
    + "Note that such expressions become part of SQL statements and therefore need to be sanatized to prevent SQL injection attacks."

  /** `Boundary.validate` as written: the same pattern as `SqlGroup.validate`, with its own message. */
  function Validate(property: string): (r: Outcome)
    ensures r.Pass? <==> PatternFindAccepts(property)
    ensures r.Fail? ==> r.error == IllegalArgument(InvalidBoundaryFieldMessage)
  {
    if PatternFindAccepts(property) then Pass else Fail(IllegalArgument(InvalidBoundaryFieldMessage))
  }

  /** The check as its message describes it: every character is in the class. */
  function ValidateSafe(property: string): (r: Outcome)
    ensures r.Pass? <==> StarMatches(property)
    ensures r.Fail? ==> r.error == IllegalArgument(InvalidBoundaryFieldMessage)
  {
    StarMatchesIffSafe(property);
    if IsSafe(property) then Pass else Fail(IllegalArgument(InvalidBoundaryFieldMessage))
  }

  /** Both classes accept exactly the same property names, as written and as corrected. */
  lemma SameAcceptedNames(property: string)
    ensures Validate(property).Pass? <==> SqlGroup.Validate(property).Pass?
    ensures ValidateSafe(property).Pass? <==> SqlGroup.ValidateSafe(property).Pass?
  {
  }

  /** The fields of a scope: a property name and a range. */
  datatype ScopeValue = ScopeValue(property: string, range: Range)

  /**
   * A scope as Java can hold one: its constructor validates the property,
   * so every scope's name is one the pattern as written accepts.
   */
  type Scope = s: ScopeValue | PatternFindAccepts(s.property)
    witness ScopeValue("", Range(Unbounded, Unbounded))

  /**
   * The constructor `new Scope(property, range)` and `Scope.by` as written:
   * the property is validated first, so a name the pattern rejects throws.
   */
  function NewScope(property: string, range: Range): (r: Result<Scope>)
    ensures r.Ok? <==> PatternFindAccepts(property)
    ensures r.Ok? ==> r.value.property == property && r.value.range == range
    ensures r.Err? ==> r.error == IllegalArgument(InvalidBoundaryFieldMessage)
  {
    match Validate(property)
    case Fail(e) => Err(e)
    case Pass => Ok(ScopeValue(property, range))
  }

  /** The constructor with the corrected check: only names made of safe characters. */
  function NewSafeScope(property: string, range: Range): (r: Result<Scope>)
    ensures r.Ok? <==> StarMatches(property)
    ensures r.Ok? ==> r.value.property == property && r.value.range == range && IsSafe(r.value.property)
    ensures r.Err? ==> r.error == IllegalArgument(InvalidBoundaryFieldMessage)
  {
    StarMatchesIffSafe(property);
    PatternFindAcceptsExactly(property);
    match ValidateSafe(property)
    case Fail(e) => Err(e)
    case Pass => Ok(ScopeValue(property, range))
  }

  /** As written, a scope on `name` followed by a newline is built; the corrected constructor refuses it. */
  lemma TrailingNewlineScope(range: Range)
    ensures NewScope("name\n", range).Ok? && NewScope("name\n", range).value == ScopeValue("name\n", range)
    ensures NewSafeScope("name\n", range).Err?
  {
    TrailingNewlineAccepted();
    StarMatchesIffSafe("name\n");
  }

  /** `Scope.equals`: field-wise comparison of property and range. */
  function ScopeEquals(a: Scope, b: Scope): (r: bool)
    ensures r <==> a == b
  {
    a.property == b.property && a.range == b.range
  }

  /** The comparison a lower bound contributes: none, `>= v` or `> v`. */
  function LowerComparison(property: string, bound: Bound): seq<CriteriaDefinition> {
    if bound.IsBounded() then
      [if bound.inclusive then Where(property, GreaterThanOrEquals, bound.value) else Where(property, GreaterThan, bound.value)]
    else []
  }

  /** The comparison an upper bound contributes: none, `<= v` or `< v`. */
  function UpperComparison(property: string, bound: Bound): seq<CriteriaDefinition> {
    if bound.IsBounded() then
      [if bound.inclusive then Where(property, LessThanOrEquals, bound.value) else Where(property, LessThan, bound.value)]
    else []
  }

  function BoundCount(b: Bound): nat {
    if b.Bounded? then 1 else 0
  }

  /**
   * `Scope.toCriteria`: an AND-group of at most two comparisons on the
   * scope's property, the lower bound's before the upper bound's.
   */
  function ScopeCriteria(scope: Scope): (r: CriteriaDefinition)
    ensures r.AllOf? && |r.operands| == BoundCount(scope.range.lower) + BoundCount(scope.range.upper) <= 2
    ensures forall i :: 0 <= i < |r.operands| ==>
              r.operands[i].Comparison? && r.operands[i].column == scope.property
    ensures scope.range.lower.Bounded? ==>
              r.operands[0] == Comparison(scope.property,
                                          if scope.range.lower.inclusive then GreaterThanOrEquals else GreaterThan,
                                          scope.range.lower.value)
    ensures scope.range.upper.Bounded? ==>
              r.operands[|r.operands| - 1] == Comparison(scope.property,
                                                        if scope.range.upper.inclusive then LessThanOrEquals else LessThan,
                                                        scope.range.upper.value)
  {
    FromAll(LowerComparison(scope.property, scope.range.lower) + UpperComparison(scope.property, scope.range.upper))
  }

  /** `Boundary.toCriteria`: one AND-group per scope, in scope order, grouped by `from`. */
  function BoundaryCriteria(scopes: seq<Scope>): (r: CriteriaDefinition)
    ensures r.AllOf? && |r.operands| == |scopes|
    ensures forall i :: 0 <= i < |scopes| ==> r.operands[i] == ScopeCriteria(scopes[i])
  {
    FromAll(seq(|scopes|, i requires 0 <= i < |scopes| => ScopeCriteria(scopes[i])))
  }

  /** The comparisons of one scope: its lower bound's, then its upper bound's. */
  function ScopeComparisons(scope: Scope): seq<CriteriaDefinition> {
    LowerComparison(scope.property, scope.range.lower) + UpperComparison(scope.property, scope.range.upper)
  }

  /** The comparisons of a list of scopes, scope by scope. */
  function AllScopeComparisons(scopes: seq<Scope>): seq<CriteriaDefinition> {
    if scopes == [] then [] else ScopeComparisons(scopes[0]) + AllScopeComparisons(scopes[1..])
  }

  /**
   * Read left to right, a boundary's criteria list the comparisons scope by
   * scope in scope order, each scope's lower bound before its upper bound.
   */
  lemma BoundaryComparisonsInOrder(scopes: seq<Scope>)
    ensures Comparisons(BoundaryCriteria(scopes)) == AllScopeComparisons(scopes)
  {
    BoundarySuffix(scopes, 0);
    assert scopes[0..] == scopes;
  }

  lemma {:induction false} BoundarySuffix(scopes: seq<Scope>, i: nat)
    requires i <= |scopes|
    ensures OperandComparisons(BoundaryCriteria(scopes), i) == AllScopeComparisons(scopes[i..])
    decreases |scopes| - i
  {
    if i < |scopes| {
      BoundarySuffix(scopes, i + 1);
      var s := scopes[i];
      FlatGroupComparisons(ScopeComparisons(s));
      assert scopes[i..][1..] == scopes[i + 1..];
    }
  }

  /** Appending a scope appends exactly that scope's group to the boundary's criteria. */
  lemma AndAppendsCriteria(scopes: seq<Scope>, scope: Scope)
    ensures BoundaryCriteria(scopes + [scope]).operands
            == BoundaryCriteria(scopes).operands + [ScopeCriteria(scope)]
  {
    var extended := scopes + [scope];
    assert forall i :: 0 <= i < |scopes| ==> extended[i] == scopes[i];
  }

  class Boundary {
    var scopes: seq<Scope>

    /** `new Boundary(scopes)` / `Boundary.scopes(...)`: keeps its own copy of the list. */
    constructor (scopes: seq<Scope>)
      ensures this.scopes == scopes
    {
      this.scopes := scopes;
    }

    /** `Boundary.scopes(...)`: a new boundary over the given scopes. */
    static method Scopes(scopes: seq<Scope>) returns (b: Boundary)
      ensures fresh(b) && b.scopes == scopes
    {
      b := new Boundary(scopes);
    }

    /** `and(scope)`: appends in place and returns the same boundary. */
    method And(scope: Scope) returns (self: Boundary)
      modifies this
      ensures self == this
      ensures scopes == old(scopes) + [scope]
      ensures NotEmpty()
    {
      scopes := scopes + [scope];
      self := this;
    }

    /** `notEmpty()`: at least one scope. */
    predicate NotEmpty()
      reads this
      ensures NotEmpty() <==> |scopes| > 0
    {
      scopes != []
    }

    /** `getScopes()`: the scopes in the order they were given and appended. */
    function GetScopes(): (r: seq<Scope>)
      reads this
      ensures r == scopes
    {
      scopes
    }

    /** `toCriteria()`: one group per scope, in scope order. */
    function ToCriteria(): (r: CriteriaDefinition)
      reads this
      ensures r.AllOf? && |r.operands| == |scopes|
      ensures forall i :: 0 <= i < |scopes| ==> r.operands[i] == ScopeCriteria(scopes[i])
    {
      BoundaryCriteria(scopes)
    }
  }
}
