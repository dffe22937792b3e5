# Query shaping and aggregate paths of Spring Data Relational, in Dafny

This project models the query-shaping layer that this fork of Spring Data
Relational adds, and its aggregate-path resolver:

- `Query` (query.dfy), the immutable query value. Every "with" operation
  (`columns`, `offset`, `limit`, `sort`, `with(Pageable)`, `withBoundary`,
  `groupBy`, `join`) is a function from the old value to a new one.
  A thrown exception is an `Err` result.
- `Boundary` and `Scope` (boundary.dfy), a range filter over named
  properties. A scope's property name must pass the safe-identifier pattern
  (safe_identifier.dfy), and the type `Scope` only holds values whose name
  the pattern accepts, as Java's validating constructor guarantees.
  `SqlGroup.validate` (sql_group.dfy) uses the
  same pattern. The validators model the pattern as Java evaluates it. A
  corrected per-character check sits beside each (see "## Findings"). A scope becomes zero, one or two comparisons. A boundary
  becomes one AND-group per scope. `Boundary` is a class because `and`
  appends to its list in place.
- `PageExtender` (pageable.dfy), a pageable that carries a boundary and
  delegates everything else to the pageable it wraps.
- `Groups` and `Joins` (groups.dfy, joins.dfy), ordered lists with an
  in-place append.
- `AggregatePath` (aggregate_path.dfy), a path from an aggregate root
  through its properties. It offers parent paths, the nearest id-defining
  ancestor, the leaf entity and qualifier columns. The mapping context is a
  map from types to persistent entities. aggregate_path.dfy also holds the
  entity graph of the unit tests as a concrete context.
- `GroupByClauseVisitor` (group_by_visitor.dfy), the stateful renderer of
  a GROUP BY clause. `RenderGroupBy` drives it over a list of fields the
  way the visitor framework does.
- `ExpressionSqlIdentifier` (sql_identifier.dfy), an identifier that
  renders its expression's text.

The library types these files use, but whose code is not part of this
model, are small abstract models. Each states its assumption:

- `Sort` (sort.dfy) is a sequence of orders. `and` is concatenation.
- `CriteriaDefinition` (criteria.dfy) is a comparison or an AND-group.
  `CriteriaDefinition.from` builds a group and rejects a `null` element
  with `IllegalArgumentException`. The comparisons of a tree, read left to
  right, give the order of the bind markers.
- `Range` (range.dfy) has two bounds. Each is unbounded or bounded, and
  inclusive or exclusive.
- `Pageable` (pageable.dfy) is `Unpaged`, `PageRequest` or `PageExtender`.
  The first two follow Spring Data Commons.
- The SQL statement model (sql_ast.dfy) has tables, columns, conditions,
  expressions and segments.

## Model

| member | source | states |
|---|---|---|
| Queries.EmptyQuery | spring-data-relational/src/main/java/org/springframework/data/relational/core/query/Query.java:89-91 | `empty()`: no criteria, no columns, unsorted, limit and offset unset, no joins, no groups |
| Queries.QueryOf | spring-data-relational/src/main/java/org/springframework/data/relational/core/query/Query.java:59-70 | `query(c)`: criteria `c`, otherwise as `empty()` |
| Queries.FreshQueriesAreUnshaped | spring-data-relational/src/main/java/org/springframework/data/relational/core/query/Query.java:284-299 | fresh queries are neither limited, sorted, grouped nor joined |
| Queries.WithColumns | spring-data-relational/src/main/java/org/springframework/data/relational/core/query/Query.java:139-146 | new columns are the old ones followed by the given ones, in order and without deduplication; every other field is unchanged |
| Queries.Columns | spring-data-relational/src/main/java/org/springframework/data/relational/core/query/Query.java:99-117 | each name becomes an unquoted identifier, appended after the existing columns |
| Queries.ColumnIdentifiers | spring-data-relational/src/main/java/org/springframework/data/relational/core/query/Query.java:126-131 | identifiers are appended as given |
| Queries.ColumnsAccumulate | spring-data-relational/src/main/java/org/springframework/data/relational/core/query/Query.java:139-146 | adding columns in two calls equals adding their concatenation in one call |
| Queries.ColumnsExample | spring-data-relational/src/main/java/org/springframework/data/relational/core/query/Query.java:99-104 | `columns("a")` then `columns("b")` gives `[a, b]`, and duplicates are kept |
| Queries.Offset | spring-data-relational/src/main/java/org/springframework/data/relational/core/query/Query.java:154-156 | only the offset changes |
| Queries.Limit | spring-data-relational/src/main/java/org/springframework/data/relational/core/query/Query.java:164-166 | only the limit changes |
| Queries.OffsetAndLimitIndependent | spring-data-relational/src/main/java/org/springframework/data/relational/core/query/Query.java:154-166 | offset and limit commute; the last offset wins; `isLimited` holds exactly when limit is not -1 |
| Queries.IsLimited | spring-data-relational/src/main/java/org/springframework/data/relational/core/query/Query.java:284-286 | holds exactly when the limit is not the -1 sentinel |
| Queries.IsSorted | spring-data-relational/src/main/java/org/springframework/data/relational/core/query/Query.java:251-253 | holds exactly when the sort has at least one order |
| Queries.HasGroups | spring-data-relational/src/main/java/org/springframework/data/relational/core/query/Query.java:289-291 | holds exactly when groups are set and name at least one column |
| Queries.HasJoin | spring-data-relational/src/main/java/org/springframework/data/relational/core/query/Query.java:297-299 | holds exactly when joins are set and hold at least one join |
| Queries.AssertNoCaseSort | spring-data-relational/src/main/java/org/springframework/data/relational/core/query/Query.java:305-314 | passes exactly when no order ignores case; otherwise fails with `IllegalArgument` naming the first such order |
| Queries.WithSort | spring-data-relational/src/main/java/org/springframework/data/relational/core/query/Query.java:214-225 | an unsorted argument returns the same query; an ignore-case order fails; otherwise the orders are appended and nothing else changes |
| Queries.SortAccumulates | spring-data-relational/src/main/java/org/springframework/data/relational/core/query/Query.java:214-225 | sorting twice equals sorting once by the concatenated sort |
| Queries.IgnoreCaseRejected | spring-data-relational/src/main/java/org/springframework/data/relational/core/query/Query.java:180 | one ignore-case order anywhere makes `sort` and a paged `with` fail with `IllegalArgument` |
| Queries.With | spring-data-relational/src/main/java/org/springframework/data/relational/core/query/Query.java:175-190 | unpaged returns the same query; any ignore-case order fails with `IllegalArgument`; an extender's non-empty boundary is ANDed into the criteria, which fails with `IllegalArgument` when the query has no criteria; then limit is the page size, offset the page offset and the page's sort is appended; columns, joins and groups are kept |
| Queries.PageSizePositive | spring-data-relational/src/main/java/org/springframework/data/relational/core/query/Query.java:184 | a page size that exists is at least 1 |
| Queries.PagingLimits | spring-data-relational/src/main/java/org/springframework/data/relational/core/query/Query.java:284-286 | a successfully paged query is limited |
| Queries.UnpagedIsIdentity | spring-data-relational/src/main/java/org/springframework/data/relational/core/query/Query.java:176-178 | an unpaged request leaves the query unchanged, even with an ignore-case sort |
| Queries.ExtendedUnpagedFails | spring-data-relational/src/main/java/org/springframework/data/relational/core/query/Query.java:182-185 | an extender around an unpaged request counts as paged, so `with` always fails: with `UnsupportedOperation` from the page size, or first with `IllegalArgument` when a non-empty boundary meets absent criteria |
| Queries.PageRequestExample | spring-data-relational/src/main/java/org/springframework/data/relational/core/query/Query.java:175-190 | page 1 of size 2 sorted by `id` descending (the values of `StatementMapperSupportUnitTests`) gives limit 2, offset 2 and the order `id DESC` |
| Queries.WithBoundary | spring-data-relational/src/main/java/org/springframework/data/relational/core/query/Query.java:192-198 | an empty boundary returns the same query; otherwise only the criteria change, to the AND of the old criteria and the boundary's, and a query without criteria fails with `IllegalArgument` |
| Queries.BoundaryOnlyAddsCriteria | spring-data-relational/src/main/java/org/springframework/data/relational/core/query/Query.java:192-198 | columns, sort, limit and offset survive `withBoundary`, and a non-empty boundary always leaves criteria |
| Queries.EmptyQueryRejectsBoundary | spring-data-relational/src/main/java/org/springframework/data/relational/core/query/Query.java:192-197 | `Query.empty().withBoundary(b)` fails with `IllegalArgument` for every non-empty `b` |
| Queries.CountWithBoundaryExample | spring-data-r2dbc/src/test/java/org/springframework/data/r2dbc/core/R2dbcEntityTemplateSupportUnitTests.java:52-64 | `name = Walter` with an inclusive [0, 2] scope on `name` yields `= Walter`, `>= 0`, `<= 2`, with bindings in that order |
| Queries.GroupBy | spring-data-relational/src/main/java/org/springframework/data/relational/core/query/Query.java:200-202 | as written: replaces the groups and sets the sort to the old sort twice over |
| Queries.Join | spring-data-relational/src/main/java/org/springframework/data/relational/core/query/Query.java:204-206 | as written: replaces the joins and sets the sort to the old sort twice over |
| Queries.GroupsAndJoinsReplaced | spring-data-relational/src/main/java/org/springframework/data/relational/core/query/Query.java:289-299 | after `groupBy`/`join`, `hasGroups`/`hasJoin` hold exactly when the new list is non-empty; the other field is kept |
| Queries.GroupByAndJoinDoubleSort | spring-data-relational/src/main/java/org/springframework/data/relational/core/query/Query.java:200-206 | as written, both operations change the sort of every sorted query, and `groupBy` is not idempotent |
| Queries.GroupByKeepingSort | spring-data-relational/src/main/java/org/springframework/data/relational/core/query/Query.java:200-202 | corrected `groupBy`: only the groups change |
| Queries.JoinKeepingSort | spring-data-relational/src/main/java/org/springframework/data/relational/core/query/Query.java:204-206 | corrected `join`: only the joins change |
| Queries.KeepingSortIsIdempotent | spring-data-relational/src/main/java/org/springframework/data/relational/core/query/Query.java:200-206 | the corrected operations keep the sort, are idempotent and commute with each other |
| Criteria.FromAll | spring-data-relational/src/main/java/org/springframework/data/domain/Boundary.java:89 | `CriteriaDefinition.from(list)`: one group operand per part, in order |
| Criteria.FromPair | spring-data-relational/src/main/java/org/springframework/data/relational/core/query/Query.java:197 | `CriteriaDefinition.from(criteria, other)`: fails with `IllegalArgument` exactly when the query's criteria are absent; otherwise a group of the two, in order |
| Criteria.FlatGroupComparisons | spring-data-relational/src/main/java/org/springframework/data/domain/Boundary.java:89 | a group of plain comparisons lists exactly those comparisons, in order |
| SafeIdentifier.StarMatchesIffSafe | spring-data-relational/src/main/java/org/springframework/data/domain/Boundary.java:14 | the character class repeated over the whole input accepts exactly the strings made of `[0-9a-zA-Z_.()]`, including the empty string |
| SafeIdentifier.PatternFindAcceptsExactly | spring-data-relational/src/main/java/org/springframework/data/domain/Boundary.java:14 | as written (a search with `^...$`): accepts a safe string, optionally followed by one line terminator or by `\r\n` |
| SafeIdentifier.TrailingNewlineAccepted | spring-data-relational/src/main/java/org/springframework/data/domain/Boundary.java:14 | as written, `"name\n"` is accepted although it is not a safe identifier |
| SafeIdentifier.PatternFindAgreesWithoutTerminators | spring-data-relational/src/main/java/org/springframework/data/domain/Boundary.java:14 | on inputs without line terminators the pattern as written accepts exactly the safe strings |
| SqlGroup.Validate | spring-data-relational/src/main/java/org/springframework/data/relational/domain/SqlGroup.java:7-14 | as written: passes exactly when the pattern, searched with `find`, accepts the name (a safe name, optionally followed by one line terminator); otherwise fails with `IllegalArgument` |
| SqlGroup.ValidateSafe | spring-data-relational/src/main/java/org/springframework/data/relational/domain/SqlGroup.java:9-13 | corrected: passes exactly when every character is in `[0-9a-zA-Z_.()]`; otherwise fails with `IllegalArgument` |
| SqlGroup.SafeNamesPass | spring-data-relational/src/main/java/org/springframework/data/relational/domain/SqlGroup.java:7 | every name the corrected check accepts is accepted as written too |
| SqlGroup.TrailingNewlinePasses | spring-data-relational/src/main/java/org/springframework/data/relational/domain/SqlGroup.java:7-10 | as written `id\n` passes; the corrected check rejects it |
| SqlGroup.RejectsUnsafeCharacter | spring-data-relational/src/main/java/org/springframework/data/relational/domain/SqlGroup.java:10-12 | an unsafe character that is not a line terminator, or any unsafe character more than two places before the end, makes both checks fail |
| SqlGroup.AcceptsEmptyAndQualifiedNames | spring-data-relational/src/main/java/org/springframework/data/relational/domain/SqlGroup.java:7 | `""`, `t.id` and `max(id)` are accepted |
| SqlGroup.RejectsInjectionAttempts | spring-data-relational/src/main/java/org/springframework/data/relational/domain/SqlGroup.java:9-13 | a semicolon, a comment, a quote and a space are rejected |
| Boundaries.Validate | spring-data-relational/src/main/java/org/springframework/data/domain/Boundary.java:33-38 | as written: passes exactly when the pattern, searched with `find`, accepts the name; otherwise fails with `IllegalArgument` |
| Boundaries.ValidateSafe | spring-data-relational/src/main/java/org/springframework/data/domain/Boundary.java:33-38 | corrected: passes exactly on names made of safe characters; otherwise fails with `IllegalArgument` |
| Boundaries.SameAcceptedNames | spring-data-relational/src/main/java/org/springframework/data/relational/domain/SqlGroup.java:7 | boundary validation and group validation accept the same strings, as written and as corrected |
| Boundaries.NewScope | spring-data-relational/src/main/java/org/springframework/data/domain/Boundary.java:61-72 | as written: constructing a scope fails with `IllegalArgument` exactly when the pattern rejects the property; otherwise it keeps the property and range; every `Scope` value satisfies the pattern by its type |
| Boundaries.NewSafeScope | spring-data-relational/src/main/java/org/springframework/data/domain/Boundary.java:61-72 | corrected: a scope is built exactly when the property is made of safe characters |
| Boundaries.TrailingNewlineScope | spring-data-relational/src/main/java/org/springframework/data/domain/Boundary.java:14 | as written a scope on `name\n` is built; the corrected constructor refuses it |
| Boundaries.ScopeEquals | spring-data-relational/src/main/java/org/springframework/data/domain/Boundary.java:100-107 | scopes are equal exactly when property and range are equal |
| Boundaries.ScopeCriteria | spring-data-relational/src/main/java/org/springframework/data/domain/Boundary.java:74-90 | one comparison per bounded side (0 to 2 in all), each on the scope's property; the lower one comes first and is `>=` or `>`; the upper one comes last and is `<=` or `<` |
| Boundaries.BoundaryCriteria | spring-data-relational/src/main/java/org/springframework/data/domain/Boundary.java:53-55 | one group per scope, in scope order |
| Boundaries.BoundaryComparisonsInOrder | spring-data-relational/src/main/java/org/springframework/data/domain/Boundary.java:53-55 | the boundary's comparisons are each scope's comparisons, concatenated in scope order |
| Boundaries.AndAppendsCriteria | spring-data-relational/src/main/java/org/springframework/data/domain/Boundary.java:40-55 | appending a scope appends exactly its group to the boundary's criteria |
| Boundaries.Boundary.constructor | spring-data-relational/src/main/java/org/springframework/data/domain/Boundary.java:21-23 | the boundary holds the given scopes |
| Boundaries.Boundary.Scopes | spring-data-relational/src/main/java/org/springframework/data/domain/Boundary.java:25-31 | the factory gives a fresh boundary over the given scopes |
| Boundaries.Boundary.And | spring-data-relational/src/main/java/org/springframework/data/domain/Boundary.java:40-43 | appends the scope at the end in place, returns the same object, and leaves the boundary non-empty |
| Boundaries.Boundary.NotEmpty | spring-data-relational/src/main/java/org/springframework/data/domain/Boundary.java:45-47 | holds exactly when there is at least one scope |
| Boundaries.Boundary.GetScopes | spring-data-relational/src/main/java/org/springframework/data/domain/Boundary.java:49-51 | the current scopes, in order |
| Boundaries.Boundary.ToCriteria | spring-data-relational/src/main/java/org/springframework/data/domain/Boundary.java:53-55 | one group per scope, in scope order, each the scope's criteria |
| Paging.ExtenderDelegatesAccessors | spring-data-relational/src/main/java/org/springframework/data/domain/PageExtender.java:18-61 | page number, page size, offset, sort and `hasPrevious` of an extender are those of the wrapped pageable |
| Paging.ExtenderIsPaged | spring-data-relational/src/main/java/org/springframework/data/domain/PageExtender.java:3-11 | an extender counts as paged even when it wraps an unpaged request |
| Paging.NavigationDropsBoundary | spring-data-relational/src/main/java/org/springframework/data/domain/PageExtender.java:38-56 | `next`, `first`, `previousOrFirst` and `withPage` return the wrapped pageable's result, which carries no boundary |
| Paging.NextAdvancesOffsetByOnePage | spring-data-relational/src/main/java/org/springframework/data/domain/PageExtender.java:38-41 | `next` moves the offset by one page and keeps the page size and sort |
| SqlIdentifiers.Create | spring-data-relational/src/main/java/org/springframework/data/relational/core/sql/ExpressionSqlIdentifier.java:14-16 | `create(e)` wraps `e` |
| SqlIdentifiers.ToSql | spring-data-relational/src/main/java/org/springframework/data/relational/core/sql/ExpressionSqlIdentifier.java:24-27 | the expression's text, whatever the identifier processing |
| SqlIdentifiers.GetReference | spring-data-relational/src/main/java/org/springframework/data/relational/core/sql/ExpressionSqlIdentifier.java:18-22 | always equal to `toSql` |
| SqlIdentifiers.Transform | spring-data-relational/src/main/java/org/springframework/data/relational/core/sql/ExpressionSqlIdentifier.java:29-32 | ignores the function: the result wraps the same expression and renders the same text |
| SqlIdentifiers.Parts | spring-data-relational/src/main/java/org/springframework/data/relational/core/sql/ExpressionSqlIdentifier.java:34-37 | iterates as a singleton holding the identifier itself |
| SqlIdentifiers.GetExpression | spring-data-relational/src/main/java/org/springframework/data/relational/core/sql/ExpressionSqlIdentifier.java:39-41 | the expression the identifier was created with: `create` of it gives back the identifier |
| SqlIdentifiers.ProcessingIsIgnored | spring-data-relational/src/main/java/org/springframework/data/relational/core/sql/ExpressionSqlIdentifier.java:18-32 | any two processings, and any transformation, render the same text |
| Grouping.Groups.constructor | spring-data-relational/src/main/java/org/springframework/data/domain/Groups.java:9-11 | the group list holds the given names in argument order |
| Grouping.Groups.By | spring-data-relational/src/main/java/org/springframework/data/domain/Groups.java:13-15 | the factory gives fresh groups over the given names |
| Grouping.Groups.GroupBy | spring-data-relational/src/main/java/org/springframework/data/domain/Groups.java:18-21 | appends one name at the end in place and returns the same object |
| Grouping.Groups.GetGroups | spring-data-relational/src/main/java/org/springframework/data/domain/Groups.java:24-26 | the current names, in order |
| Grouping.Groups.NotEmpty | spring-data-relational/src/main/java/org/springframework/data/domain/Groups.java:28-30 | holds exactly when there is at least one name |
| Joining.By | spring-data-relational/src/main/java/org/springframework/data/domain/Joins.java:22-24 | a join with exactly the given type, table and condition |
| Joining.Joins.constructor | spring-data-relational/src/main/java/org/springframework/data/domain/Joins.java:14-16 | the join list holds the given joins in argument order |
| Joining.Joins.Of | spring-data-relational/src/main/java/org/springframework/data/domain/Joins.java:18-20 | `Joins.join(...)` gives fresh joins over the given ones |
| Joining.Joins.And | spring-data-relational/src/main/java/org/springframework/data/domain/Joins.java:26-29 | appends the join at the end in place and returns the same object |
| Joining.Joins.GetJoins | spring-data-relational/src/main/java/org/springframework/data/domain/Joins.java:32-34 | the current joins, in order |
| Joining.Joins.NotEmpty | spring-data-relational/src/main/java/org/springframework/data/domain/Joins.java:36-38 | holds exactly when there is at least one join |
| AggregatePaths.IsRoot | spring-data-relational/src/main/java/org/springframework/data/relational/core/mapping/AggregatePath.java:40-42 | holds exactly when the path has length 0 |
| AggregatePaths.GetLength | spring-data-relational/src/main/java/org/springframework/data/relational/core/mapping/AggregatePath.java:156-158 | 0 exactly for the root, else the number of properties |
| AggregatePaths.HasIdProperty | spring-data-relational/src/main/java/org/springframework/data/relational/core/mapping/AggregatePath.java:101-105 | never fails below the root; true exactly when the leaf entity resolves and has an id; fails exactly when the root's entity is missing, with that lookup's error |
| AggregatePaths.Matches | spring-data-relational/src/main/java/org/springframework/data/relational/core/mapping/AggregatePath.java:50-52 | the root matches exactly the empty path; any other path matches an equal path |
| AggregatePaths.GetReverseColumnName | spring-data-relational/src/main/java/org/springframework/data/relational/core/mapping/AggregatePath.java:59-66 | fails with `IllegalState` exactly on the root; otherwise the leaf property's reverse column |
| AggregatePaths.GetParentPath | spring-data-relational/src/main/java/org/springframework/data/relational/core/mapping/AggregatePath.java:74-85 | fails with `IllegalState` on the root; a one-segment path gives the root of the leaf's owner type; a longer path loses its last segment |
| AggregatePaths.GetLeafEntity | spring-data-relational/src/main/java/org/springframework/data/relational/core/mapping/AggregatePath.java:94-96 | the root's entity, which must exist; otherwise the entity of the leaf's actual type, if there is one |
| AggregatePaths.GetIdDefiningParentPath | spring-data-relational/src/main/java/org/springframework/data/relational/core/mapping/AggregatePath.java:113-126 | fails on the root; otherwise a strictly shorter path that is the root or has an id |
| AggregatePaths.GetRequiredLeafEntity | spring-data-relational/src/main/java/org/springframework/data/relational/core/mapping/AggregatePath.java:135-149 | below the root: the persistent entity of the leaf property's actual type, or `IllegalState` exactly when that type has none; the root resolves its entity from its type |
| AggregatePaths.GetRequiredIdProperty | spring-data-relational/src/main/java/org/springframework/data/relational/core/mapping/AggregatePath.java:151-154 | the leaf entity's id property when the entity exists and has one; the leaf entity's error when it cannot be resolved; `IllegalState` when the entity has no id |
| AggregatePaths.GetQualifierColumn | spring-data-relational/src/main/java/org/springframework/data/relational/core/mapping/AggregatePath.java:167-169 | the empty identifier for the root, else the leaf's key column |
| AggregatePaths.GetQualifierColumnType | spring-data-relational/src/main/java/org/springframework/data/relational/core/mapping/AggregatePath.java:177-179 | none for the root, else the leaf's qualifier type |
| AggregatePaths.ParentChainReachesRoot | spring-data-relational/src/main/java/org/springframework/data/relational/core/mapping/AggregatePath.java:74-85 | taking the parent `k` times gives the ancestor `k` segments up; a path of length `n` reaches a root after exactly `n` steps, and one more step fails |
| AggregatePaths.IdDefiningParentIsNearest | spring-data-relational/src/main/java/org/springframework/data/relational/core/mapping/AggregatePath.java:113-126 | the id-defining parent is the nearest strict ancestor that is the root or has an id; every ancestor in between has none |
| AggregatePathExample.IdDefiningPathIsRootWithoutIntermediateId | spring-data-relational/src/test/java/org/springframework/data/relational/core/mapping/AggregatePathUnitTests.java:54-59 | the six paths through `second`, `secondList` or `second2`, then `third` or `third2`, have the root as id-defining parent |
| AggregatePathExample.IdDefiningPathStopsAtEntityWithId | spring-data-relational/src/test/java/org/springframework/data/relational/core/mapping/AggregatePathUnitTests.java:60-61 | below `withId` the id-defining parent is the `withId` path, not the root |
| AggregatePathExample.RootAndNonRootPaths | spring-data-relational/src/test/java/org/springframework/data/relational/core/mapping/AggregatePathUnitTests.java:33-46 | the root path is a root and a property path is not; the root's id property is `entityId` |
| GroupByRendering.GroupByClauseVisitor.constructor | spring-data-relational/src/main/java/org/springframework/data/relational/core/sql/render/GroupByClauseVisitor.java:11-20 | an empty builder, no delegate, and `first` set |
| GroupByRendering.GroupByClauseVisitor.EnterMatched | spring-data-relational/src/main/java/org/springframework/data/relational/core/sql/render/GroupByClauseVisitor.java:22-31 | appends `", "` unless this is the first field; `first` is then false |
| GroupByRendering.GroupByClauseVisitor.LeaveNested | spring-data-relational/src/main/java/org/springframework/data/relational/core/sql/render/GroupByClauseVisitor.java:34-47 | flushes and clears a pending function or expression renderer; a column appends its qualified reference; `first` is unchanged |
| GroupByRendering.GroupByClauseVisitor.GetRenderedPart | spring-data-relational/src/main/java/org/springframework/data/relational/core/sql/render/GroupByClauseVisitor.java:49-52 | everything the builder holds |
| GroupByRendering.RenderGroupBy | spring-data-relational/src/main/java/org/springframework/data/relational/core/sql/render/GroupByClauseVisitor.java:22-52 | the rendered part is the fields' qualified references joined by `", "` |
| GroupByRendering.JoinedFromFront | spring-data-relational/src/main/java/org/springframework/data/relational/core/sql/render/GroupByClauseVisitor.java:25-27 | the joined list is the first reference, then `", "` before each further one |
| GroupByRendering.JoinedLength | spring-data-relational/src/main/java/org/springframework/data/relational/core/sql/render/GroupByClauseVisitor.java:49-52 | `n` references are joined by `n - 1` two-character separators |
| GroupByRendering.TwoFieldsExample | spring-data-r2dbc/src/test/java/org/springframework/data/r2dbc/core/StatementMapperSupportUnitTests.java:28-35 | grouping by `name` and `date` of `table` renders `table.name, table.date` |

## Left out

- The reactive repositories (`SimpleR2dbcRepository`, `R2dbcRepository`) only delegate to collaborators that are not part of this model.
- Statement rendering is not part of this model: SELECT/COUNT strings, count subqueries, where join conditions go, bind-marker numbering. The model stops at the criteria tree. Its comparisons, read left to right, give the order of the bindings.
- `getScopes`, `getGroups` and `getJoins` return the live Java list. The model returns the current contents as a value, so later appends through an alias are seen only by reading the field again.
- `RelationalPersistentProperty.getReverseColumnName(path)` is not part of this model. Each property carries a fixed reverse column name, so the name's dependence on the path is not modelled.
- The console output in `getReverseColumnName` and all `toString` and `hashCode` methods are left out.
- The mapping context is a pure map from types to entities. Its caching and its creation of entities on demand are left out.
- Error messages that embed a Java type name are shortened to their fixed text.
- `NameRenderer.fullyQualifiedReference` is not part of this model. It is assumed to render `table.column`, with no quoting or aliasing from the render context.
- `TypedSubtreeVisitor` is not part of this model. `RenderGroupBy` assumes that each field is entered, then its column's table is left, then the column is left.
- Nothing in `GroupByClauseVisitor` ever sets `delegate`. The flush branch of `LeaveNested` is modelled but cannot be reached from `RenderGroupBy`.
- Queries.Limit: limit is a Java `int` and offset a `long`. The model uses unbounded integers, so overflow of `page * size` in `getOffset` is not modelled either.
- SqlIdentifiers.Transform: Java returns a new object; the model compares identifiers by value, so object identity is not modelled.
- Boundaries.ScopeCriteria: `Criteria.where` is not part of this model. Upstream it asserts that the column name has text, so a bounded scope on a name without a non-whitespace character (the empty name, or a lone line terminator the pattern as written lets through) would throw there; the model yields the comparison instead.
- Queries.WithBoundary: inherits the `Boundaries.ScopeCriteria` gap: with such a scope it returns `Ok` where Java's `Criteria.where` throws `IllegalArgumentException`.
- Queries.With: inherits the same gap through its boundary criteria.
- Criteria.FromPair: `CriteriaDefinition` is not part of this model. Its rejection of a `null` element (the library's `Assert.noNullElements`) is an assumption, as is grouping with no shortcut for zero or one operand.
- `Assert.notNull` checks on arguments are left out: Dafny values are never null.
- `Unpaged.withPage` and `PageRequest` follow Spring Data Commons, which is not part of this model. The page size of a `PageRequest` is at least 1 by type.

## Findings

| source | as written | input that shows it | evidently intended | confidence | as-written member | corrected member |
|---|---|---|---|---|---|---|
| spring-data-relational/src/main/java/org/springframework/data/domain/Boundary.java:14 | `validate` tests the pattern with `asPredicate()`, which searches with `find`; without MULTILINE, Java's `$` also matches before one final line terminator | `new Scope("name\n", range)` is built | only names made of the safe characters pass | medium, not executed | Boundaries.TrailingNewlineScope | Boundaries.NewSafeScope |
| spring-data-relational/src/main/java/org/springframework/data/relational/domain/SqlGroup.java:7 | the same pattern and the same `asPredicate()` test | `SqlGroup.validate("id\n")` returns normally | only names made of the safe characters pass | medium, not executed | SqlGroup.TrailingNewlinePasses | SqlGroup.ValidateSafe |
| spring-data-relational/src/main/java/org/springframework/data/relational/core/query/Query.java:200-202 | `groupBy` sets the sort to `this.sort.and(sort)`, where `sort` is the query's own field | a query sorted by `id` is sorted by `id, id` after `groupBy` | only the groups change | medium, not executed | Queries.GroupByAndJoinDoubleSort | Queries.GroupByKeepingSort |
| spring-data-relational/src/main/java/org/springframework/data/relational/core/query/Query.java:204-206 | `join` does the same to the sort | a query sorted by `id` is sorted by `id, id` after `join` | only the joins change | medium, not executed | Queries.GroupByAndJoinDoubleSort | Queries.JoinKeepingSort |

The model keeps the validators, `groupBy` and `join` as written, and gives
the corrected versions beside them. `SafeIdentifier.PatternFindAcceptsExactly`
states exactly what the pattern as written accepts.
