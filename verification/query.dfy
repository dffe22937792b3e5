/**
 * `Query`: an immutable value combining criteria, projected columns, a sort,
 * limit and offset (-1 meaning unset), joins and groups. Every "with"
 * operation returns a new value; none changes its argument.
 */
module Queries {
  import opened Errors
  import opened Sorting
  import opened Criteria
  import opened Boundaries
  import opened Paging
  import opened SqlIdentifiers
  import Grouping
  import Joining

  /** The sentinel for an unset limit or offset. */
  const NoLimit: int := -1

  datatype Query = Query(
    criteria: Option<CriteriaDefinition>,
    columns: seq<SqlIdentifier>,
    sort: Sort,
    limit: int,
    offset: int,
    joins: Option<Joining.Joins>,
    groups: Option<Grouping.Groups>)

  /** No columns, no sort, no limit or offset, no joins or groups. */
  predicate Unshaped(q: Query) {
    q.columns == [] && IsUnsorted(q.sort) && q.limit == NoLimit && q.offset == NoLimit && q.joins == None && q.groups == None
  }

  /** `Query.empty()`. */
  function EmptyQuery(): (q: Query)
    ensures q.criteria == None && Unshaped(q)
  {
    Query(None, [], Unsorted(), NoLimit, NoLimit, None, None)
  }

  /** `Query.query(criteria)`. */
  function QueryOf(criteria: CriteriaDefinition): (q: Query)
    ensures q.criteria == Some(criteria) && Unshaped(q)
  {
    Query(Some(criteria), [], Unsorted(), NoLimit, NoLimit, None, None)
  }

  /** `withColumns`: the old columns followed by the new ones, nothing else changed. */
  function WithColumns(q: Query, columns: seq<SqlIdentifier>): (r: Query)
    ensures |r.columns| == |q.columns| + |columns|
    ensures r.columns[..|q.columns|] == q.columns && r.columns[|q.columns|..] == columns
    ensures r == q.(columns := r.columns)
  {
    Query(q.criteria, q.columns + columns, q.sort, q.limit, q.offset, q.joins, q.groups)
  }

  function UnquotedAll(names: seq<string>): (ids: seq<SqlIdentifier>)
    ensures |ids| == |names| && forall i :: 0 <= i < |names| ==> ids[i] == Unquoted(names[i])
  {
    seq(|names|, i requires 0 <= i < |names| => Unquoted(names[i]))
  }

  /** `columns(String...)` and `columns(Collection<String>)`: each name as an unquoted identifier. */
  function Columns(q: Query, names: seq<string>): (r: Query)
    ensures r == q.(columns := q.columns + UnquotedAll(names))
  {
    WithColumns(q, UnquotedAll(names))
  }

  /** `columns(SqlIdentifier...)`. */
  function ColumnIdentifiers(q: Query, columns: seq<SqlIdentifier>): (r: Query)
    ensures r == q.(columns := q.columns + columns)
  {
    WithColumns(q, columns)
  }

  /** `offset(n)`: only the offset changes. */
  function Offset(q: Query, offset: int): (r: Query)
    ensures r.offset == offset && r == q.(offset := r.offset)
  {
    Query(q.criteria, q.columns, q.sort, q.limit, offset, q.joins, q.groups)
  }

  /** `limit(n)`: only the limit changes. */
  function Limit(q: Query, limit: int): (r: Query)
    ensures r.limit == limit && r == q.(limit := r.limit)
  {
    Query(q.criteria, q.columns, q.sort, limit, q.offset, q.joins, q.groups)
  }

  /** `isLimited()`: a limit other than the sentinel is set. */
  predicate IsLimited(q: Query)
    ensures IsLimited(q) <==> q.limit != NoLimit
  {
    q.limit != NoLimit
  }

  /** `isSorted()`: the sort holds at least one order. */
  predicate IsSorted(q: Query)
    ensures IsSorted(q) <==> |q.sort| > 0
  {
    Sorting.IsSorted(q.sort)
  }

  /** `hasGroups()`: groups are set and name at least one column. */
  predicate HasGroups(q: Query)
    reads if q.groups.Some? then {q.groups.value} else {}
    ensures HasGroups(q) <==> q.groups.Some? && |q.groups.value.groups| > 0
  {
    q.groups.Some? && q.groups.value.NotEmpty()
  }

  /** `hasJoin()`: joins are set and hold at least one join. */
  predicate HasJoin(q: Query)
    reads if q.joins.Some? then {q.joins.value} else {}
    ensures HasJoin(q) <==> q.joins.Some? && |q.joins.value.joins| > 0
  {
    q.joins.Some? && q.joins.value.NotEmpty()
  }

  predicate HasIgnoreCase(s: Sort) {
    exists i :: 0 <= i < |s| && s[i].ignoreCase
  }

  /** The position of the first ignore-case order, or `|s|` when there is none. */
  function FirstIgnoreCase(s: Sort): (k: nat)
    ensures k <= |s|
    ensures forall j :: 0 <= j < k ==> !s[j].ignoreCase
    ensures k < |s| ==> s[k].ignoreCase
  {
    if s == [] || s[0].ignoreCase then 0 else 1 + FirstIgnoreCase(s[1..])
  }

  function IgnoreCaseMessage(property: string): string {
    "Given sort contained an Order for " + property + " with ignore case;Ignore case sorting is not supported"
  }

  /**
   * `assertNoCaseSort`: throws `IllegalArgumentException` naming the first
   * order that asks for ignore-case sorting; returns when there is none.
   */
  function AssertNoCaseSort(s: Sort): (r: Outcome)
    ensures r.Pass? <==> !HasIgnoreCase(s)
    ensures r.Fail? ==> exists i :: 0 <= i < |s| && s[i].ignoreCase
                           && (forall j :: 0 <= j < i ==> !s[j].ignoreCase)
                           && r.error == IllegalArgument(IgnoreCaseMessage(s[i].property))
  {
    var k := FirstIgnoreCase(s);
    if k == |s| then Pass else Fail(IllegalArgument(IgnoreCaseMessage(s[k].property)))
  }

  /**
   * `sort(s)`: the same query when `s` is unsorted; otherwise fails on an
   * ignore-case order, or appends the orders of `s` and changes nothing else.
   */
  function WithSort(q: Query, s: Sort): (r: Result<Query>)
    ensures IsUnsorted(s) ==> r == Ok(q)
    ensures !IsUnsorted(s) ==> (r.Ok? <==> !HasIgnoreCase(s))
    ensures r.Err? ==> r.error.IllegalArgument?
    ensures r.Ok? && !IsUnsorted(s) ==> r.value == q.(sort := q.sort + s)
  {
    if IsUnsorted(s) then Ok(q)
    else
      match AssertNoCaseSort(s)
      case Fail(e) => Err(e)
      case Pass => Ok(Query(q.criteria, q.columns, And(q.sort, s), q.limit, q.offset, q.joins, q.groups))
  }

  /** The boundary `with(p)` merges: that of an outermost extender with at least one scope. */
  predicate CarriesBoundary(p: Pageable)
    reads if p.PageExtender? then {p.boundary} else {}
  {
    p.PageExtender? && p.boundary.NotEmpty()
  }

  /**
   * `with(pageable)`: the same query when `p` is unpaged. Otherwise fails on
   * an ignore-case order of `p`'s sort; ANDs the boundary of an extender into
   * the criteria, which fails when the query has none; then sets limit to the
   * page size and offset to the page's offset and appends `p`'s sort.
   * Columns, joins and groups are kept.
   */
  function With(q: Query, p: Pageable): (r: Result<Query>)
    reads if p.PageExtender? then {p.boundary} else {}
    ensures IsUnpaged(p) ==> r == Ok(q)
    ensures IsPaged(p) && HasIgnoreCase(GetSort(p)) ==> r.Err? && r.error.IllegalArgument?
    ensures IsPaged(p) && !HasIgnoreCase(GetSort(p)) && CarriesBoundary(p) && q.criteria.None? ==>
      r == Err(IllegalArgument(NullElementMessage))
    ensures IsPaged(p) ==>
      (r.Ok? <==> !HasIgnoreCase(GetSort(p)) && (CarriesBoundary(p) ==> q.criteria.Some?)
                  && GetPageSize(p).Ok? && GetOffset(p).Ok?)
    ensures IsPaged(p) && r.Ok? ==>
      && r.value.limit == GetPageSize(p).value
      && r.value.offset == GetOffset(p).value
      && r.value.sort == q.sort + GetSort(p)
      && (CarriesBoundary(p) ==> q.criteria.Some? && r.value.criteria == Some(AllOf([q.criteria.value, p.boundary.ToCriteria()])))
      && (!CarriesBoundary(p) ==> r.value.criteria == q.criteria)
      && r.value == q.(criteria := r.value.criteria, sort := r.value.sort, limit := r.value.limit, offset := r.value.offset)
  {
    if IsUnpaged(p) then Ok(q)
    else
      match AssertNoCaseSort(GetSort(p))
      case Fail(e) => Err(e)
      case Pass =>
        var criteria :- if CarriesBoundary(p) then MergedCriteria(q.criteria, p.boundary.ToCriteria()) else Ok(q.criteria);
        var size :- GetPageSize(p);
        var offset :- GetOffset(p);
        Ok(Query(criteria, q.columns, And(q.sort, GetSort(p)), size, offset, q.joins, q.groups))
  }

  /** `from(this.criteria, boundaryCriteria)`, as the new query's criteria. */
  function MergedCriteria(criteria: Option<CriteriaDefinition>, boundary: CriteriaDefinition): Result<Option<CriteriaDefinition>> {
    var merged :- FromPair(criteria, boundary);
    Ok(Some(merged))
  }

  /**
   * `withBoundary(b)`: the same query when `b` has no scope; otherwise only
   * the criteria change, to the AND of the old criteria and `b`'s, which
   * fails when the query has no criteria.
   */
  function WithBoundary(q: Query, b: Boundary): (r: Result<Query>)
    reads b
    ensures !b.NotEmpty() ==> r == Ok(q)
    ensures b.NotEmpty() ==> (r.Ok? <==> q.criteria.Some?)
    ensures r.Err? ==> r.error == IllegalArgument(NullElementMessage)
    ensures b.NotEmpty() && r.Ok? ==>
      q.criteria.Some? && r.value == q.(criteria := Some(AllOf([q.criteria.value, BoundaryCriteria(b.scopes)])))
  {
    if !b.NotEmpty() then Ok(q)
    else
      var criteria :- MergedCriteria(q.criteria, b.ToCriteria());
      Ok(Query(criteria, q.columns, q.sort, q.limit, q.offset, q.joins, q.groups))
  }

  /**
   * `groupBy(groups)` as written: replaces the groups and also sets the sort
   * to `this.sort.and(sort)`, where `sort` is the query's own field, so every
   * order appears twice.
   */
  function GroupBy(q: Query, groups: Option<Grouping.Groups>): (r: Query)
    ensures r.groups == groups && r.sort == q.sort + q.sort
    ensures r == q.(groups := groups, sort := r.sort)
  {
    Query(q.criteria, q.columns, And(q.sort, q.sort), q.limit, q.offset, q.joins, groups)
  }

  /** `join(joins)` as written: replaces the joins and doubles the sort like `groupBy`. */
  function Join(q: Query, joins: Option<Joining.Joins>): (r: Query)
    ensures r.joins == joins && r.sort == q.sort + q.sort
    ensures r == q.(joins := joins, sort := r.sort)
  {
    Query(q.criteria, q.columns, And(q.sort, q.sort), q.limit, q.offset, joins, q.groups)
  }

  /** `groupBy(groups)` as evidently intended: only the groups are replaced. */
  function GroupByKeepingSort(q: Query, groups: Option<Grouping.Groups>): (r: Query)
    ensures r == q.(groups := groups)
  {
    Query(q.criteria, q.columns, q.sort, q.limit, q.offset, q.joins, groups)
  }

  /** `join(joins)` as evidently intended: only the joins are replaced. */
  function JoinKeepingSort(q: Query, joins: Option<Joining.Joins>): (r: Query)
    ensures r == q.(joins := joins)
  {
    Query(q.criteria, q.columns, q.sort, q.limit, q.offset, joins, q.groups)
  }

  // ---------------------------------------------------------------------
  // Properties

  /** A fresh query is neither limited, sorted, grouped nor joined. */
  lemma FreshQueriesAreUnshaped(criteria: CriteriaDefinition)
    ensures var e := EmptyQuery(); !IsLimited(e) && !IsSorted(e) && !HasGroups(e) && !HasJoin(e)
    ensures var q := QueryOf(criteria); !IsLimited(q) && !IsSorted(q) && !HasGroups(q) && !HasJoin(q)
  {
  }

  /** Adding columns in two steps is adding them in one: order kept, nothing dropped or merged. */
  lemma ColumnsAccumulate(q: Query, first: seq<string>, second: seq<string>)
    ensures Columns(Columns(q, first), second) == Columns(q, first + second)
  {
    assert UnquotedAll(first) + UnquotedAll(second) == UnquotedAll(first + second);
  }

  lemma ColumnsExample()
    ensures Columns(Columns(EmptyQuery(), ["a"]), ["b"]).columns == [Unquoted("a"), Unquoted("b")]
    ensures Columns(EmptyQuery(), ["a", "a"]).columns == [Unquoted("a"), Unquoted("a")]
  {
    ColumnsAccumulate(EmptyQuery(), ["a"], ["b"]);
    assert ["a"] + ["b"] == ["a", "b"];
  }

  /** Offset and limit are independent settings; the last one given wins. */
  lemma OffsetAndLimitIndependent(q: Query, offset: int, limit: int, offset2: int)
    ensures Limit(Offset(q, offset), limit) == Offset(Limit(q, limit), offset)
    ensures Offset(Offset(q, offset), offset2) == Offset(q, offset2)
    ensures IsLimited(Offset(q, offset)) == IsLimited(q)
    ensures IsLimited(Limit(q, limit)) <==> limit != NoLimit
  {
  }

  /** Sorting in two steps appends both sorts, as sorting once by their concatenation does. */
  lemma SortAccumulates(q: Query, first: Sort, second: Sort)
    requires !HasIgnoreCase(first + second)
    ensures WithSort(q, first).Ok?
    ensures WithSort(WithSort(q, first).value, second) == WithSort(q, first + second)
  {
    assert !HasIgnoreCase(first) by {
      forall i | 0 <= i < |first| ensures !first[i].ignoreCase {
        assert first[i] == (first + second)[i];
      }
    }
    assert !HasIgnoreCase(second) by {
      forall i | 0 <= i < |second| ensures !second[i].ignoreCase {
        assert second[i] == (first + second)[|first| + i];
      }
    }
    if first == [] {
      assert first + second == second;
    } else if second == [] {
      assert first + second == first;
    } else {
      assert q.sort + first + second == q.sort + (first + second);
    }
  }

  /** One ignore-case order anywhere in a non-empty sort rejects it, whatever the query. */
  lemma IgnoreCaseRejected(q: Query, s: Sort, i: nat)
    requires i < |s| && s[i].ignoreCase
    ensures WithSort(q, s).Err? && WithSort(q, s).error.IllegalArgument?
    ensures forall p :: IsPaged(p) && GetSort(p) == s ==> With(q, p).Err? && With(q, p).error.IllegalArgument?
  {
  }

  lemma {:induction false} PageSizePositive(p: Pageable)
    requires GetPageSize(p).Ok?
    ensures GetPageSize(p).value >= 1
  {
    if p.PageExtender? {
      PageSizePositive(p.pageable);
    }
  }

  /** Applying a page request always leaves a limited query. */
  lemma PagingLimits(q: Query, p: Pageable)
    requires IsPaged(p) && With(q, p).Ok?
    ensures IsLimited(With(q, p).value)
  {
    PageSizePositive(p);
  }

  /** An unpaged request returns the query unchanged, even with an ignore-case sort. */
  lemma UnpagedIsIdentity(q: Query, s: Sort)
    ensures With(q, Unpaged(s)) == Ok(q)
  {
  }

  /**
   * An extender around an unpaged request counts as paged, so `with` asks
   * the unpaged request for its page size, which throws, unless merging the
   * boundary into absent criteria has thrown first.
   */
  lemma ExtendedUnpagedFails(q: Query, s: Sort, b: Boundary)
    ensures With(q, PageExtender(Unpaged(s), b)).Err?
    ensures !HasIgnoreCase(s) && (q.criteria.Some? || !b.NotEmpty()) ==>
      With(q, PageExtender(Unpaged(s), b)).error.UnsupportedOperation?
    ensures !HasIgnoreCase(s) && q.criteria.None? && b.NotEmpty() ==>
      With(q, PageExtender(Unpaged(s), b)).error == IllegalArgument(NullElementMessage)
  {
    var p := PageExtender(Unpaged(s), b);
    assert GetPageSize(p) == Err(Unsupported);
    assert GetSort(p) == s;
  }

  /** A page request of page 1 and size 2 skips two rows and returns at most two. */
  lemma PageRequestExample(q: Query)
    ensures With(q, PageRequest(1, 2, By(Desc, ["id"]))) == Ok(q.(sort := q.sort + [Order("id", Desc, false)], limit := 2, offset := 2))
  {
    var s := By(Desc, ["id"]);
    assert s == [Order("id", Desc, false)];
    assert !HasIgnoreCase(s);
  }

  /** Merging an empty boundary changes nothing; a non-empty one only adds criteria. */
  lemma BoundaryOnlyAddsCriteria(q: Query, b: Boundary)
    ensures WithBoundary(q, b).Ok? ==>
      var r := WithBoundary(q, b).value;
      r.columns == q.columns && r.sort == q.sort && IsLimited(r) == IsLimited(q) && r.offset == q.offset
    ensures b.scopes == [] ==> WithBoundary(q, b) == Ok(q)
    ensures b.scopes != [] && q.criteria.Some? ==> WithBoundary(q, b).Ok? && WithBoundary(q, b).value.criteria.Some?
  {
  }

  /** A query without criteria, such as `Query.empty()`, cannot take a non-empty boundary. */
  lemma EmptyQueryRejectsBoundary(b: Boundary)
    requires b.scopes != []
    ensures WithBoundary(EmptyQuery(), b) == Err(IllegalArgument(NullElementMessage))
  {
  }

  /**
   * `name = 'Walter'` with an inclusive [0, 2] boundary on `name` lists its
   * comparisons as `= Walter`, `>= 0`, `<= 2`: the bind values in that order.
   */
  lemma CountWithBoundaryExample(b: Boundary)
    requires var s := NewScope("name", Ranges.Range(Ranges.Inclusive(IntValue(0)), Ranges.Inclusive(IntValue(2))));
      s.Ok? && b.scopes == [s.value]
    ensures var r := WithBoundary(QueryOf(Where("name", Is, StringValue("Walter"))), b);
      && r.Ok? && r.value.criteria.Some?
      && Comparisons(r.value.criteria.value) == [
           Comparison("name", Is, StringValue("Walter")),
           Comparison("name", GreaterThanOrEquals, IntValue(0)),
           Comparison("name", LessThanOrEquals, IntValue(2))]
      && Bindings(r.value.criteria.value) == [StringValue("Walter"), IntValue(0), IntValue(2)]
  {
    var walter := Where("name", Is, StringValue("Walter"));
    var bc := BoundaryCriteria(b.scopes);
    BoundaryComparisonsInOrder(b.scopes);
    var c := FromAll([walter, bc]);
    assert OperandComparisons(c, 2) == [];
    assert OperandComparisons(c, 1) == Comparisons(bc);
    assert OperandComparisons(c, 0) == [walter] + Comparisons(bc);
  }

  /** `hasGroups`/`hasJoin` after `groupBy`/`join`: exactly when the new list is non-empty. */
  lemma GroupsAndJoinsReplaced(q: Query, g: Grouping.Groups, j: Joining.Joins)
    ensures HasGroups(GroupBy(q, Some(g))) <==> g.groups != []
    ensures HasJoin(Join(q, Some(j))) <==> j.joins != []
    ensures !HasGroups(GroupBy(q, None)) && !HasJoin(Join(q, None))
    ensures GroupBy(q, Some(g)).joins == q.joins && Join(q, Some(j)).groups == q.groups
  {
  }

  /** As written, `groupBy` and `join` change the sort of any sorted query. */
  lemma GroupByAndJoinDoubleSort(q: Query, g: Option<Grouping.Groups>, j: Option<Joining.Joins>)
    requires IsSorted(q)
    ensures GroupBy(q, g).sort != q.sort && |GroupBy(q, g).sort| == 2 * |q.sort|
    ensures Join(q, j).sort != q.sort && |Join(q, j).sort| == 2 * |q.sort|
    ensures GroupBy(GroupBy(q, g), g) != GroupBy(q, g)
  {
  }

  /** The corrected operations keep the sort and are idempotent. */
  lemma KeepingSortIsIdempotent(q: Query, g: Option<Grouping.Groups>, j: Option<Joining.Joins>)
    ensures GroupByKeepingSort(q, g).sort == q.sort && JoinKeepingSort(q, j).sort == q.sort
    ensures GroupByKeepingSort(GroupByKeepingSort(q, g), g) == GroupByKeepingSort(q, g)
    ensures JoinKeepingSort(JoinKeepingSort(q, j), j) == JoinKeepingSort(q, j)
    ensures JoinKeepingSort(GroupByKeepingSort(q, g), j) == GroupByKeepingSort(JoinKeepingSort(q, j), g)
  {
  }
}
