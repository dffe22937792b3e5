/**
 * The parts of Spring Data Relational's SQL statement model that the core
 * touches, which are not part of this model's sources: tables, columns, join
 * conditions, expressions and the segments a renderer visits. `Table.create`
 * keeps the table name; an expression is known by its text
 * (`Expression.toString()`).
 */
module SqlAst {

  datatype Table = Table(name: string)

  datatype Column = Column(table: Table, name: string)

  /** A join condition such as `join_table.id = table.join_id`, by its text. */
  datatype Condition = Condition(text: string)

  datatype Expression = Expression(text: string)

  /** One entry of a GROUP BY clause. */
  datatype GroupByField = GroupByField(column: Column)

  /** The segments a visitor enters and leaves. */
  datatype Segment =
    | FieldSegment(field: GroupByField)
    | ColumnSegment(column: Column)
    | TableSegment(table: Table)
    | ExpressionSegment(expression: Expression)

  function TableCreate(name: string): Table {
    Table(name)
  }
}
