/**
 * SQL identifiers, and `ExpressionSqlIdentifier`: an identifier whose SQL is
 * the text of an expression, whatever identifier processing (quoting, letter
 * casing) is asked for. The other kinds of identifier are used by the rest of
 * the model only as values; how they render is not modelled.
 */
module SqlIdentifiers {
  import opened SqlAst

  /** Quoting and letter-casing rules of a dialect. */
  datatype IdentifierProcessing = IdentifierProcessing(quote: string, upperCase: bool)

  datatype ExpressionSqlIdentifier = ExpressionSqlIdentifier(expression: Expression)

  datatype SqlIdentifier =
    | Empty
    | Unquoted(name: string)
    | FromExpression(identifier: ExpressionSqlIdentifier)

  /** `ExpressionSqlIdentifier.create(e)`: the same as the constructor. */
  function Create(e: Expression): (id: SqlIdentifier)
    ensures id.FromExpression? && id.identifier.expression == e
  {
    FromExpression(ExpressionSqlIdentifier(e))
  }

  /** `getExpression()`: the expression the identifier was created with. */
  function GetExpression(id: ExpressionSqlIdentifier): (e: Expression)
    ensures Create(e) == FromExpression(id)
  {
    id.expression
  }

  /** `toSql(processing)`: the expression's text; `processing` plays no part. */
  function ToSql(id: ExpressionSqlIdentifier, processing: IdentifierProcessing): (sql: string)
    ensures sql == GetExpression(id).text
  {
    id.expression.text
  }

  /** `getReference(processing)` (deprecated): the same text as `toSql`. */
  function GetReference(id: ExpressionSqlIdentifier, processing: IdentifierProcessing): (reference: string)
    ensures reference == ToSql(id, processing)
  {
    id.expression.text
  }

  /** `transform(f)`: `f` is ignored; the result wraps the same expression. */
  function Transform(id: ExpressionSqlIdentifier, f: string -> string): (r: SqlIdentifier)
    ensures r.FromExpression? && r.identifier.expression == id.expression
    ensures forall processing :: ToSql(r.identifier, processing) == ToSql(id, processing)
  {
    FromExpression(ExpressionSqlIdentifier(id.expression))
  }

  /** `iterator()`: exactly one part, the identifier itself. */
  function Parts(id: ExpressionSqlIdentifier): (parts: seq<SqlIdentifier>)
    ensures |parts| == 1 && parts[0] == FromExpression(id)
  {
    [FromExpression(id)]
  }

  /** The rendered text is the same under any two processings and after any transformation. */
  lemma ProcessingIsIgnored(id: ExpressionSqlIdentifier, p: IdentifierProcessing, q: IdentifierProcessing, f: string -> string)
    ensures ToSql(id, p) == ToSql(id, q) == GetReference(id, q)
    ensures ToSql(Transform(id, f).identifier, p) == ToSql(id, q)
  {
  }
}
