/**
 * `GroupByClauseVisitor`: renders the fields of a GROUP BY clause as a
 * comma-separated list of fully qualified column references.
 *
 * The visitor framework (`TypedSubtreeVisitor`) calls `enterMatched` on each
 * `GroupByField`, then `leaveNested` on the segments below it in post-order
 * (the column's table, then the column). `RenderGroupBy` plays that
 * framework's part for a sequence of fields.
 */
module GroupByRendering {
  import opened Errors
  import opened SqlAst

  /** The rendering context; only the column references it produces matter here. */
  datatype RenderContext = RenderContext(dialect: string)

  /** A renderer the visitor may have delegated a nested part to. */
  datatype PartRenderer =
    | SimpleFunctionVisitor(renderedPart: string)
    | ExpressionVisitor(renderedPart: string)
    | OtherPartRenderer(renderedPart: string)

  /**
   * `NameRenderer.fullyQualifiedReference(context, column)`: the column
   * qualified by its table, as in `table.name`.
   */
  function FullyQualifiedReference(context: RenderContext, column: Column): string {
    column.table.name + "." + column.name
  }

  /** The references of a GROUP BY clause, separated by ", ", in field order. */
  function Joined(parts: seq<string>): string
    decreases |parts|
  {
    if parts == [] then ""
    else if |parts| == 1 then parts[0]
    else Joined(parts[..|parts| - 1]) + ", " + parts[|parts| - 1]
  }

  function References(context: RenderContext, fields: seq<GroupByField>): (r: seq<string>)
    ensures |r| == |fields|
    ensures forall i :: 0 <= i < |fields| ==> r[i] == FullyQualifiedReference(context, fields[i].column)
  {
    seq(|fields|, i requires 0 <= i < |fields| => FullyQualifiedReference(context, fields[i].column))
  }

  class GroupByClauseVisitor {
    const context: RenderContext
    var builder: string
    var delegate: Option<PartRenderer>
    var first: bool

    constructor (context: RenderContext)
      ensures this.context == context
      ensures builder == "" && delegate == None && first
    {
      this.context := context;
      builder := "";
      delegate := None;
      first := true;
    }

    /** Opens a field: every field but the first is preceded by ", ". */
    method EnterMatched(field: GroupByField)
      modifies this
      ensures builder == if old(first) then old(builder) else old(builder) + ", "
      ensures !first && delegate == old(delegate)
    {
      if !first {
        builder := builder + ", ";
      }
      first := false;
    }

    /**
     * Closes a nested segment: a pending function or expression renderer's
     * output is appended and the delegate cleared; a column appends its fully
     * qualified reference; any other segment appends nothing.
     */
    method LeaveNested(segment: Segment)
      modifies this
      ensures first == old(first)
      ensures var flushed := old(delegate).Some? && !old(delegate).value.OtherPartRenderer?;
        && builder == old(builder)
                      + (if flushed then old(delegate).value.renderedPart else "")
                      + (if segment.ColumnSegment? then FullyQualifiedReference(context, segment.column) else "")
        && delegate == (if flushed then None else old(delegate))
    {
      if delegate.Some? && (delegate.value.SimpleFunctionVisitor? || delegate.value.ExpressionVisitor?) {
        builder := builder + delegate.value.renderedPart;
        delegate := None;
      }
      if segment.ColumnSegment? {
        builder := builder + FullyQualifiedReference(context, segment.column);
      }
    }

    /** `getRenderedPart()`: everything appended so far. */
    function GetRenderedPart(): (r: string)
      reads this
      ensures r == builder
    {
      builder
    }
  }

  /**
   * Drives a fresh visitor over `fields` as the visitor framework does and
   * returns what it rendered: the fields' qualified references joined by ", ".
   */
  method RenderGroupBy(context: RenderContext, fields: seq<GroupByField>) returns (part: string)
    ensures part == Joined(References(context, fields))
  {
    var visitor := new GroupByClauseVisitor(context);
    ghost var refs := References(context, fields);
    var i := 0;
    while i < |fields|
      invariant 0 <= i <= |fields|
      invariant visitor.context == context
      invariant visitor.builder == Joined(refs[..i])
      invariant visitor.first <==> i == 0
      invariant visitor.delegate == None
    {
      var field := fields[i];
      visitor.EnterMatched(field);
      visitor.LeaveNested(TableSegment(field.column.table));
      visitor.LeaveNested(ColumnSegment(field.column));
      assert refs[..i + 1][..i] == refs[..i];
      i := i + 1;
    }
    assert refs[..i] == refs;
    part := visitor.GetRenderedPart();
  }

  /** The joined form read from the front: the first reference, then ", " before each further one. */
  lemma {:induction false} JoinedFromFront(parts: seq<string>)
    requires |parts| > 0
    ensures Joined(parts) == parts[0] + (if |parts| == 1 then "" else ", " + Joined(parts[1..]))
    decreases |parts|
  {
    if |parts| > 2 {
      var init := parts[..|parts| - 1];
      JoinedFromFront(init);
      assert init[1..] == parts[1..][..|parts| - 2];
      assert Joined(parts[1..]) == Joined(init[1..]) + ", " + parts[|parts| - 1];
    } else if |parts| == 2 {
      assert parts[1..] == [parts[1]];
    }
  }

  /** The rendered clause has every reference plus two characters per separator. */
  lemma {:induction false} JoinedLength(parts: seq<string>)
    requires |parts| > 0
    ensures |Joined(parts)| == TotalLength(parts) + 2 * (|parts| - 1)
    decreases |parts|
  {
    if |parts| > 1 {
      var init := parts[..|parts| - 1];
      assert TotalLength(parts) == TotalLength(init) + |parts[|parts| - 1]| by {
        TotalLengthSnoc(init, parts[|parts| - 1]);
        assert init + [parts[|parts| - 1]] == parts;
      }
      JoinedLength(init);
    }
  }

  function TotalLength(parts: seq<string>): nat {
    if parts == [] then 0 else |parts[0]| + TotalLength(parts[1..])
  }

  lemma {:induction false} TotalLengthSnoc(parts: seq<string>, last: string)
    ensures TotalLength(parts + [last]) == TotalLength(parts) + |last|
    decreases |parts|
  {
    if parts == [] {
      assert [] + [last] == [last];
      assert [last][1..] == [];
    } else {
      assert (parts + [last])[1..] == parts[1..] + [last];
      TotalLengthSnoc(parts[1..], last);
    }
  }

  /** Grouping by `name` and `date` of `table` renders `table.name, table.date`. */
  lemma TwoFieldsExample()
    ensures Joined(References(RenderContext(""), [GroupByField(Column(Table("table"), "name")), GroupByField(Column(Table("table"), "date"))]))
            == "table.name, table.date"
  {
    var refs := References(RenderContext(""), [GroupByField(Column(Table("table"), "name")), GroupByField(Column(Table("table"), "date"))]);
    assert refs[0] == "table" + "." + "name" == "table.name";
    assert refs[1] == "table" + "." + "date" == "table.date";
    assert refs == ["table.name", "table.date"];
    assert refs[..1] == ["table.name"];
  }
}
