/**
 * The condition fragments the two-list builders append to their `filterAnd`
 * and `filterOr` lists (`DBSelectBuilder+Predicate.swift`,
 * `DBUpdateBuilder+Predicate.swift`, `DBDeleteBuilder+Predicate.swift`) and
 * the `on`/`orOn` conditions of a select's joins
 * (`DBSelectBuilder+Join.swift`): a column compared with a column, with one
 * value or with a list of values, or a column followed by a custom operator.
 * No conjunction is written into the fragment; the builders differ only in
 * how they qualify the columns.
 */
module Conditions {
  import opened Fragments
  import Operators
  import Models

  /** How a builder qualifies a column it renders. */
  datatype Qualifier =
    | OwnTable                  // `DBColumn(column)`: the column's own table, if any
    | Unqualified               // `DBColumn(table: nil, ...)`
    | Qualified(table: string)  // `DBColumn(table: alias, ...)`

  function TableOf(q: Qualifier, c: Column): Option<string> {
    match q
    case OwnTable => c.table
    case Unqualified => None
    case Qualified(t) => Some(t)
  }

  /**
   * `DBColumn(...).serialize()` of the `Models` generation, with the
   * qualifier's table and no alias.  Where the builders pass a `Column` for
   * the name, its key is the name.
   */
  function ColumnRef(quote: string -> string, q: Qualifier, c: Column): (r: string)
    ensures TableOf(q, c).None? ==> r == quote(c.key)
    ensures TableOf(q, c).Some? ==> r == quote(TableOf(q, c).value) + "." + quote(c.key)
  {
    AppendEmpty((if TableOf(q, c).Some? then quote(TableOf(q, c).value) + "." else "") + quote(c.key));
    assert "" + quote(c.key) == quote(c.key);
    Models.ModelColumnSql(quote, Models.ModelColumn(TableOf(q, c), c.key, None))
  }

  /** Each column rendered with the qualifier, in order. */
  function Refs(quote: string -> string, q: Qualifier, cols: seq<Column>): seq<string> {
    seq(|cols|, i requires 0 <= i < |cols| => ColumnRef(quote, q, cols[i]))
  }

  /** A custom operator, one space on each side. */
  function Padded(custom: string): (r: string)
    ensures |r| == |custom| + 2 && r[0] == ' ' && r[|r| - 1] == ' ' && r[1..|r| - 1] == custom
  {
    " " + custom + " "
  }

  /** The argument forms of the `filter`/`orFilter`/`on`/`orOn` overloads. */
  datatype Condition =
    | Columns(cc: Operators.ColumnColumn)                       // (_: ColumnColumn)
    | Value(cb: Operators.ColumnBind)                           // (_: ColumnBind)
    | Values(cbs: Operators.ColumnBinds)                        // (_: ColumnBinds)
    | Custom(column: Column, custom: string, bind: Bind)        // (_: Column, _: String, _: Encodable)
    | CustomList(column: Column, custom: string, binds: seq<Bind>)  // (_: Column, _: String, _: [Encodable])

  /** The column on the left of a condition. */
  function Lhs(c: Condition): Column {
    match c
    case Columns(cc) => cc.lhs
    case Value(cb) => cb.lhs
    case Values(cbs) => cbs.lhs
    case Custom(column, _, _) => column
    case CustomList(column, _, _) => column
  }

  /**
   * The fragment one overload appends, with the left column qualified by
   * `lq` and, in the column-vs-column form, the right one by `rq`: it starts
   * with the left column; it carries no bind for two columns, the one value
   * for a single-value form and the values in order for a list form; a
   * custom operator is padded with one space on each side; and it has no
   * cast.
   */
  function Fragment(quote: string -> string, lq: Qualifier, rq: Qualifier, c: Condition): (r: Raw)
    ensures r.cast == None
    ensures ColumnRef(quote, lq, Lhs(c)) <= r.sql
    ensures c.Columns? ==> r.binds == [] && EndsWith(r.sql, ColumnRef(quote, rq, c.cc.rhs))
    ensures c.Value? ==> r.binds == [c.cb.rhs]
    ensures c.Values? ==> r.binds == c.cbs.rhs
    ensures c.Custom? ==> r.binds == [c.bind]
    ensures c.CustomList? ==> r.binds == c.binds
    ensures c.Custom? || c.CustomList? ==> r.sql == ColumnRef(quote, lq, c.column) + Padded(c.custom)
  {
    var lhs := ColumnRef(quote, lq, Lhs(c));
    match c
    case Columns(cc) =>
      var rhs := ColumnRef(quote, rq, cc.rhs);
      assert (lhs + cc.op + rhs)[|lhs + cc.op|..] == rhs;
      DBRaw(lhs + cc.op + rhs, [])
    case Value(cb) => DBRaw(lhs + cb.op, [cb.rhs])
    case Values(cbs) => DBRaw(lhs + cbs.op, cbs.rhs)
    case Custom(column, custom, bind) => DBRaw(lhs + " " + custom + " ", [bind])
    case CustomList(column, custom, binds) => DBRaw(lhs + " " + custom + " ", binds)
  }

  // ---- Assignments ----

  /**
   * The argument forms of an update's `set` overloads
   * (`DBUpdateBuilder+Set.swift`) and of an insert's `set`/`doUpdateSet`
   * (`DBInsertBuilder+Clause.swift`): a column with an operator and a value,
   * a column set to a value, or a column increased or decreased by one.
   */
  datatype Assignment =
    | Assign(cb: Operators.ColumnBind)   // set(_: ColumnBind), doUpdateSet(_: ColumnBind)
    | To(field: Column, rhs: Bind)       // set(_:to:)
    | Plus(field: Column, rhs: Bind)     // set(_:plus:)
    | Minus(field: Column, rhs: Bind)    // set(_:minus:)

  /** The column an assignment sets. */
  function Target(a: Assignment): Column {
    if a.Assign? then a.cb.lhs else a.field
  }

  /** The value an assignment sends. */
  function Assigned(a: Assignment): Bind {
    if a.Assign? then a.cb.rhs else a.rhs
  }

  /**
   * The fragment an assignment appends: the column, unqualified, then the
   * operator; `plus`/`minus` name the column a second time, on the right of
   * " = ", followed by the arithmetic operator.  The one value is its only
   * bind and it has no cast.
   */
  function SetFragment(quote: string -> string, a: Assignment): (r: Raw)
    ensures r.cast == None && r.binds == [Assigned(a)]
    ensures ColumnRef(quote, Unqualified, Target(a)) + (if a.Assign? then a.cb.op else " = ") <= r.sql
    ensures a.Plus? || a.Minus? ==>
      r.sql == ColumnRef(quote, Unqualified, a.field) + " = " + ColumnRef(quote, Unqualified, a.field)
               + (if a.Plus? then " + " else " - ")
  {
    var lhs := ColumnRef(quote, Unqualified, Target(a));
    match a
    case Assign(cb) => DBRaw(lhs + cb.op, [cb.rhs])
    case To(_, rhs) => DBRaw(lhs + " = ", [rhs])
    case Plus(_, rhs) => DBRaw(lhs + " = " + lhs + " + ", [rhs])
    case Minus(_, rhs) => DBRaw(lhs + " = " + lhs + " - ", [rhs])
  }
}
