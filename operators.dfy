/**
 * The operator constructors every predicate is built from: comparison of a
 * column with a column or with a value, list membership and ranges, and the
 * concatenation of two raw fragments.  Each operator is stored as its
 * space-padded SQL text.
 */
module Operators {
  import opened Fragments

  /** `==`, `!=`, `>`, `<`, `>=`, `<=` on columns. */
  datatype CompareOp = Eq | Ne | Gt | Lt | Ge | Le

  /** `~~`, `!~`, `|=|`, `!|=|` on a column and a list of values. */
  datatype ListOp = In | NotIn | Between | NotBetween

  /** The SQL text of a comparison, one space on each side. */
  function CompareText(op: CompareOp): (r: string)
    ensures |r| >= 3 && r[0] == ' ' && r[|r| - 1] == ' ' && r[1] != ' ' && r[|r| - 2] != ' '
  {
    match op
    case Eq => " = "
    case Ne => " != "
    case Gt => " > "
    case Lt => " < "
    case Ge => " >= "
    case Le => " <= "
  }

  /** The SQL text of a list operator, one space on each side. */
  function ListText(op: ListOp): (r: string)
    ensures |r| >= 4 && r[0] == ' ' && r[|r| - 1] == ' ' && r[1] != ' ' && r[|r| - 2] != ' '
    ensures EndsWith(r, " IN ") <==> op == In || op == NotIn
    ensures EndsWith(r, "BETWEEN ") <==> op == Between || op == NotBetween
  {
    match op
    case In => " IN "
    case NotIn => " NOT IN "
    case Between => " BETWEEN "
    case NotBetween => " NOT BETWEEN "
  }

  function ParseCompare(s: string): (r: Option<CompareOp>)
    ensures r.Some? ==> CompareText(r.value) == s
  {
    if s == " = " then Some(Eq)
    else if s == " != " then Some(Ne)
    else if s == " > " then Some(Gt)
    else if s == " < " then Some(Lt)
    else if s == " >= " then Some(Ge)
    else if s == " <= " then Some(Le)
    else None
  }

  /** Every comparison has its own text: parsing recovers it. */
  lemma CompareRoundTrip(op: CompareOp)
    ensures ParseCompare(CompareText(op)) == Some(op)
  {
  }

  function ParseListOp(s: string): (r: Option<ListOp>)
    ensures r.Some? ==> ListText(r.value) == s
  {
    if s == " IN " then Some(In)
    else if s == " NOT IN " then Some(NotIn)
    else if s == " BETWEEN " then Some(Between)
    else if s == " NOT BETWEEN " then Some(NotBetween)
    else None
  }

  /** Every list operator has its own text: parsing recovers it. */
  lemma ListOpRoundTrip(op: ListOp)
    ensures ParseListOp(ListText(op)) == Some(op)
  {
  }

  /** `ColumnColumn`, `ColumnBind`, `ColumnBinds`: a left column, an operator text and a right operand. */
  datatype ColumnColumn = ColumnColumn(lhs: Column, op: string, rhs: Column)
  datatype ColumnBind = ColumnBind(lhs: Column, op: string, rhs: Bind)
  datatype ColumnBinds = ColumnBinds(lhs: Column, op: string, rhs: seq<Bind>)

  /** `lhs == rhs` (and the other comparisons) on two columns. */
  function CompareColumns(lhs: Column, op: CompareOp, rhs: Column): (r: ColumnColumn)
    ensures r.lhs == lhs && r.rhs == rhs
    ensures ParseCompare(r.op) == Some(op)
  {
    ColumnColumn(lhs, CompareText(op), rhs)
  }

  /** `lhs == value` (and the other comparisons) on a column and a value, kept unchanged. */
  function CompareValue(lhs: Column, op: CompareOp, value: Bind): (r: ColumnBind)
    ensures r.lhs == lhs && r.rhs == value
    ensures ParseCompare(r.op) == Some(op)
  {
    ColumnBind(lhs, CompareText(op), value)
  }

  /** `lhs ~~ values` (and `!~`, `|=|`, `!|=|`): the list is kept as given, whatever its length. */
  function CompareList(lhs: Column, op: ListOp, values: seq<Bind>): (r: ColumnBinds)
    ensures r.lhs == lhs && r.rhs == values
    ensures ParseListOp(r.op) == Some(op)
  {
    ColumnBinds(lhs, ListText(op), values)
  }

  /** `SQLRaw`: text and binds. */
  datatype SqlRaw = SqlRaw(sql: string, binds: seq<Bind>)

  /** `lhs + rhs` on raw fragments: the texts joined by one space, the binds concatenated. */
  function Concat(lhs: SqlRaw, rhs: SqlRaw): (r: SqlRaw)
    ensures |r.sql| == |lhs.sql| + 1 + |rhs.sql|
    ensures r.sql[..|lhs.sql|] == lhs.sql && r.sql[|lhs.sql|] == ' ' && r.sql[|lhs.sql| + 1..] == rhs.sql
    ensures |r.binds| == |lhs.binds| + |rhs.binds|
    ensures r.binds[..|lhs.binds|] == lhs.binds && r.binds[|lhs.binds|..] == rhs.binds
  {
    SqlRaw(lhs.sql + " " + rhs.sql, lhs.binds + rhs.binds)
  }

  /** Concatenation is associative, so a chain of `+` needs no parentheses. */
  lemma ConcatAssociative(a: SqlRaw, b: SqlRaw, c: SqlRaw)
    ensures Concat(Concat(a, b), c) == Concat(a, Concat(b, c))
  {
    assert a.sql + " " + b.sql + " " + c.sql == a.sql + " " + (b.sql + " " + c.sql);
    Assoc(a.binds, b.binds, c.binds);
  }
}
