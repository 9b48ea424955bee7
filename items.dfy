/**
 * Identifier and keyword rendering of the `DBItems` generation: columns and
 * tables quoted explicitly with double quotes, join methods and sort
 * directions as fixed keyword tables.
 *
 * Each renderer is paired with a parser that inverts it; the round-trip
 * lemmas show that for quote-free names the rendering loses nothing (so two
 * different items never render to the same text).
 */
module Items {
  import opened Fragments

  /** `DBItems/DBColumn.swift`: optional table, column name, optional unquoted alias. */
  datatype ItemColumn = ItemColumn(table: Option<string>, column: string, alias: Option<string>)

  /** `DBColumn.init(_ column: Column, alias:)`: table and key are taken from the column. */
  function ItemColumnOf(c: Column, alias: Option<string>): ItemColumn {
    ItemColumn(c.table, c.key, alias)
  }

  /** `"table".` when a table is present, nothing otherwise. */
  function TablePrefix(table: Option<string>): string {
    if table.Some? then DQ(table.value) + "." else ""
  }

  /** ` AS alias`, the alias written as is. */
  function AliasSuffix(alias: Option<string>): string {
    if alias.Some? then " AS " + alias.value else ""
  }

  /** `DBColumn.serialize()`. */
  function ColumnSql(c: ItemColumn): (r: string)
    ensures |r| >= 2 && r[0] == '"'
    ensures c.alias.None? ==> r[|r| - 1] == '"'
  {
    TablePrefix(c.table) + DQ(c.column) + AliasSuffix(c.alias)
  }

  /** Reads back what `AliasSuffix` wrote: `Some(alias)` on success, `None` on malformed text. */
  function ParseAlias(after: string): Option<Option<string>> {
    if after == [] then Some(None)
    else if |after| >= 4 && after[..4] == " AS " then Some(Some(after[4..]))
    else None
  }

  /** Reads a rendered column back into its parts. */
  function ParseColumnSql(r: string): Option<ItemColumn> {
    if |r| == 0 || r[0] != '"' then None
    else match SplitAt(r[1..], '"')
      case None => None
      case Some(p) =>
        if |p.1| >= 2 && p.1[0] == '.' && p.1[1] == '"' then
          match SplitAt(p.1[2..], '"')
          case None => None
          case Some(q) =>
            match ParseAlias(q.1)
            case None => None
            case Some(a) => Some(ItemColumn(Some(p.0), q.0, a))
        else
          match ParseAlias(p.1)
          case None => None
          case Some(a) => Some(ItemColumn(None, p.0, a))
  }

  /** A quoted quote-free name opens with `"` and splits back at its closing quote. */
  lemma OpenQuoted(s: string, tail: string)
    requires QuoteFree(s)
    ensures |DQ(s) + tail| > 0 && (DQ(s) + tail)[0] == '"'
    ensures SplitAt((DQ(s) + tail)[1..], '"') == Some((s, tail))
  {
    assert (DQ(s) + tail)[1..] == s + "\"" + tail;
    SplitAtQuote(s, tail);
  }

  /** `"q"."n"` followed by `tail` splits into the qualifier, then the name and `tail`. */
  lemma QualifiedName(q: string, n: string, tail: string)
    requires QuoteFree(q) && QuoteFree(n)
    ensures var r := TablePrefix(Some(q)) + DQ(n) + tail;
      |r| > 0 && r[0] == '"' &&
      var rest := "." + (DQ(n) + tail);
      SplitAt(r[1..], '"') == Some((q, rest)) &&
      |rest| >= 2 && rest[0] == '.' && rest[1] == '"' &&
      SplitAt(rest[2..], '"') == Some((n, tail))
  {
    var rest := "." + (DQ(n) + tail);
    assert TablePrefix(Some(q)) + DQ(n) + tail == DQ(q) + rest;
    OpenQuoted(q, rest);
    assert rest[2..] == (DQ(n) + tail)[1..];
    OpenQuoted(n, tail);
  }

  lemma AliasRoundTrip(alias: Option<string>)
    ensures ParseAlias(AliasSuffix(alias)) == Some(alias)
    ensures AliasSuffix(alias) == [] || AliasSuffix(alias)[0] == ' '
  {
    if alias.Some? {
      assert (" AS " + alias.value)[..4] == " AS ";
      assert (" AS " + alias.value)[4..] == alias.value;
    }
  }

  /**
   * The column renderer is invertible on quote-free table and column names:
   * table prefix, double-quoted name and unquoted alias are recovered exactly.
   */
  lemma ColumnRoundTrip(c: ItemColumn)
    requires c.table.Some? ==> QuoteFree(c.table.value)
    requires QuoteFree(c.column)
    ensures ParseColumnSql(ColumnSql(c)) == Some(c)
  {
    var a := AliasSuffix(c.alias);
    AliasRoundTrip(c.alias);
    if c.table.Some? {
      QualifiedName(c.table.value, c.column, a);
    } else {
      AppendEmpty(DQ(c.column));
      assert ColumnSql(c) == DQ(c.column) + a;
      OpenQuoted(c.column, a);
    }
  }

  /** Rendering is injective on quote-free names. */
  lemma ColumnSqlInjective(c: ItemColumn, d: ItemColumn)
    requires c.table.Some? ==> QuoteFree(c.table.value)
    requires d.table.Some? ==> QuoteFree(d.table.value)
    requires QuoteFree(c.column) && QuoteFree(d.column)
    requires ColumnSql(c) == ColumnSql(d)
    ensures c == d
  {
    ColumnRoundTrip(c);
    ColumnRoundTrip(d);
  }

  /** `DBItems/DBTable.swift`: optional schema (`space`), table name, optional alias. */
  datatype ItemTable = ItemTable(space: Option<string>, table: string, alias: Option<string>)

  /** `DBTable.init(_ space: = nil, table:, as: = nil)`: schema and alias default to absent. */
  function PlainTable(table: string): ItemTable {
    ItemTable(None, table, None)
  }

  /** ` AS "alias"`: unlike the column alias, the table alias is quoted. */
  function QuotedAliasSuffix(alias: Option<string>): string {
    if alias.Some? then " AS " + DQ(alias.value) else ""
  }

  /** `DBTable.serialize()`. */
  function TableSql(t: ItemTable): (r: string)
    ensures |r| >= 2 && r[0] == '"' && r[|r| - 1] == '"'
  {
    TablePrefix(t.space) + DQ(t.table) + QuotedAliasSuffix(t.alias)
  }

  function ParseQuotedAlias(after: string): Option<Option<string>> {
    if after == [] then Some(None)
    else if |after| >= 6 && after[..5] == " AS \"" && after[|after| - 1] == '"' then
      Some(Some(after[5..|after| - 1]))
    else None
  }

  /** Reads a rendered table back into its parts. */
  function ParseTableSql(r: string): Option<ItemTable> {
    if |r| == 0 || r[0] != '"' then None
    else match SplitAt(r[1..], '"')
      case None => None
      case Some(p) =>
        if |p.1| >= 2 && p.1[0] == '.' && p.1[1] == '"' then
          match SplitAt(p.1[2..], '"')
          case None => None
          case Some(q) =>
            match ParseQuotedAlias(q.1)
            case None => None
            case Some(a) => Some(ItemTable(Some(p.0), q.0, a))
        else
          match ParseQuotedAlias(p.1)
          case None => None
          case Some(a) => Some(ItemTable(None, p.0, a))
  }

  lemma QuotedAliasRoundTrip(alias: Option<string>)
    ensures ParseQuotedAlias(QuotedAliasSuffix(alias)) == Some(alias)
    ensures QuotedAliasSuffix(alias) == [] || QuotedAliasSuffix(alias)[0] == ' '
  {
    if alias.Some? {
      var s := " AS " + DQ(alias.value);
      assert s[..5] == " AS \"";
      assert s[5..|s| - 1] == alias.value;
    }
  }

  /** The table renderer is invertible on quote-free schema and table names. */
  lemma TableRoundTrip(t: ItemTable)
    requires t.space.Some? ==> QuoteFree(t.space.value)
    requires QuoteFree(t.table)
    ensures ParseTableSql(TableSql(t)) == Some(t)
  {
    var a := QuotedAliasSuffix(t.alias);
    QuotedAliasRoundTrip(t.alias);
    if t.space.Some? {
      QualifiedName(t.space.value, t.table, a);
    } else {
      AppendEmpty(DQ(t.table));
      assert TableSql(t) == DQ(t.table) + a;
      OpenQuoted(t.table, a);
    }
  }

  /** `DBJoinMethod`. */
  datatype JoinMethod = Cross | Full | Inner | Left | Right

  /** `DBJoinMethod.serialize()`: the keyword padded with one space on each side. */
  function JoinMethodSql(m: JoinMethod): (r: string)
    ensures |r| >= 3 && r[0] == ' ' && r[|r| - 1] == ' ' && r[1] != ' ' && r[|r| - 2] != ' '
  {
    match m
    case Cross => " CROSS "
    case Full => " FULL "
    case Inner => " INNER "
    case Left => " LEFT "
    case Right => " RIGHT "
  }

  /** The keyword table read backwards. */
  function ParseJoinMethod(s: string): (r: Option<JoinMethod>)
    ensures r.Some? ==> JoinMethodSql(r.value) == s
  {
    if s == " CROSS " then Some(Cross)
    else if s == " FULL " then Some(Full)
    else if s == " INNER " then Some(Inner)
    else if s == " LEFT " then Some(Left)
    else if s == " RIGHT " then Some(Right)
    else None
  }

  /** Every join method has its own keyword: parsing recovers it, so the table is injective. */
  lemma JoinMethodRoundTrip(m: JoinMethod)
    ensures ParseJoinMethod(JoinMethodSql(m)) == Some(m)
  {
  }

  /** `DBDirection`. */
  datatype Direction = Asc | Desc | NullsFirst | NotNullFirst

  /** `DBDirection.serialize()`: a leading space and no trailing space. */
  function DirectionSql(d: Direction): (r: string)
    ensures |r| >= 2 && r[0] == ' ' && r[1] != ' ' && r[|r| - 1] != ' '
  {
    match d
    case Asc => " ASC"
    case Desc => " DESC"
    case NullsFirst => " NULL"
    case NotNullFirst => " NOT NULL"
  }

  function ParseDirection(s: string): (r: Option<Direction>)
    ensures r.Some? ==> DirectionSql(r.value) == s
  {
    if s == " ASC" then Some(Asc)
    else if s == " DESC" then Some(Desc)
    else if s == " NULL" then Some(NullsFirst)
    else if s == " NOT NULL" then Some(NotNullFirst)
    else None
  }

  /** Every direction has its own suffix: parsing recovers it, so the table is injective. */
  lemma DirectionRoundTrip(d: Direction)
    ensures ParseDirection(DirectionSql(d)) == Some(d)
  {
  }

  // ---- Columns and tables made by the initialisers ----

  /**
   * A column made from a `Column` renders text from which that column's
   * table and key, and the alias given, are read back.
   */
  lemma ColumnOfRoundTrip(c: Column, alias: Option<string>)
    requires c.table.Some? ==> QuoteFree(c.table.value)
    requires QuoteFree(c.key)
    ensures ParseColumnSql(ColumnSql(ItemColumnOf(c, alias))).Some?
    ensures var r := ParseColumnSql(ColumnSql(ItemColumnOf(c, alias))).value;
            r.table == c.table && r.column == c.key && r.alias == alias
  {
    ColumnRoundTrip(ItemColumnOf(c, alias));
  }

  /**
   * A table made with the default schema and alias renders as its quoted
   * name alone, which reads back as a table with neither.
   */
  lemma PlainTableRoundTrip(table: string)
    requires QuoteFree(table)
    ensures TableSql(PlainTable(table)) == DQ(table)
    ensures ParseTableSql(DQ(table)) == Some(ItemTable(None, table, None))
  {
    AppendEmpty(DQ(table));
    TableRoundTrip(PlainTable(table));
  }
}
