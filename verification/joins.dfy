/**
 * `Joins`: the ordered list of joins a query carries. `and` appends in place.
 */
module Joining {
  import opened SqlAst

  datatype JoinType = PlainJoin | CrossJoin | LeftOuterJoin | RightOuterJoin | FullOuterJoin

  /** A join of a target table under an ON condition. */
  datatype Join = Join(joinType: JoinType, table: Table, on: Condition)

  /** `Joins.by(table, type, on)`: `Join.by(type, Table.create(table), on)`. */
  function By(table: string, joinType: JoinType, on: Condition): (j: Join)
    ensures j.joinType == joinType && j.table.name == table && j.on == on
  {
    Join(joinType, TableCreate(table), on)
  }

  class Joins {
    var joins: seq<Join>

    /** `new Joins(join...)`: a fresh list holding the joins in argument order. */
    constructor (join: seq<Join>)
      ensures joins == join
    {
      joins := join;
    }

    /** `Joins.join(join...)`. */
    static method Of(join: seq<Join>) returns (j: Joins)
      ensures fresh(j) && j.joins == join
    {
      j := new Joins(join);
    }

    /** `and(join)`: appends one join at the end and returns the same object. */
    method And(join: Join) returns (self: Joins)
      modifies this
      ensures self == this
      ensures joins == old(joins) + [join]
      ensures NotEmpty()
    {
      joins := joins + [join];
      self := this;
    }

    /** `getJoins()`: the joins in the order they were given and appended. */
    function GetJoins(): (r: seq<Join>)
      reads this
      ensures r == joins
    {
      joins
    }

    /** `notEmpty()`: at least one join. */
    predicate NotEmpty()
      reads this
      ensures NotEmpty() <==> |joins| > 0
    {
      joins != []
    }
  }
}
