/**
 * Identifier rendering of the `Models` generation.  Names are quoted by the
 * `col:` string interpolation, whose definition is not part of this model; it
 * is the parameter `quote`.  With `quote` instantiated to double-quote
 * wrapping, the renderings are compared with the explicit ones in `Items`.
 */
module Models {
  import opened Fragments
  import Items

  /** A `DBModel` type's static `schema` (table name) and default `alias`. */
  datatype TableModel = TableModel(schema: string, alias: string)

  /** `Models/DBColumn.swift`: optional table, column name, optional column alias. */
  datatype ModelColumn = ModelColumn(table: Option<string>, column: string, columnAlias: Option<string>)

  /** `DBColumn.init(_ column: Column, as:)`: table and key are taken from the column. */
  function ModelColumnOf(c: Column, columnAlias: Option<string>): ModelColumn {
    ModelColumn(c.table, c.key, columnAlias)
  }

  /** `DBColumn.serialize()`: quoted table and ".", quoted name, " AS " and quoted alias. */
  function ModelColumnSql(quote: string -> string, c: ModelColumn): string {
    (if c.table.Some? then quote(c.table.value) + "." else "")
    + quote(c.column)
    + (if c.columnAlias.Some? then " AS " + quote(c.columnAlias.value) else "")
  }

  /**
   * With double-quote wrapping, a `Models` column renders exactly like the
   * `DBItems` column with the same table and name, except that its alias is
   * quoted where the `DBItems` alias is written bare.
   */
  lemma ModelColumnMatchesItems(c: ModelColumn)
    ensures ModelColumnSql(DQ, c)
         == Items.ColumnSql(Items.ItemColumn(c.table, c.column, None))
            + (if c.columnAlias.Some? then " AS " + DQ(c.columnAlias.value) else "")
    ensures c.columnAlias.Some? ==>
      ModelColumnSql(DQ, c) == Items.ColumnSql(Items.ItemColumn(c.table, c.column, Some(DQ(c.columnAlias.value))))
  {
    var t := if c.table.Some? then DQ(c.table.value) + "." else "";
    var a := if c.columnAlias.Some? then " AS " + DQ(c.columnAlias.value) else "";
    AppendEmpty(t + DQ(c.column));
    assert Items.ColumnSql(Items.ItemColumn(c.table, c.column, None)) == t + DQ(c.column);
  }

  /** `Models/DBTable.swift`: table name and optional alias. */
  datatype ModelTable = ModelTable(table: string, alias: Option<string>)

  /** `DBTable.serialize()`: the quoted table, then " AS " and the quoted alias when present. */
  function ModelTableSql(quote: string -> string, t: ModelTable): string {
    if t.alias.Some? then quote(t.table) + " AS " + quote(t.alias.value) else quote(t.table)
  }

  /**
   * With double-quote wrapping, a `Models` table renders exactly like the
   * `DBItems` table with no schema and the same name and alias.
   */
  lemma ModelTableMatchesItems(t: ModelTable)
    ensures ModelTableSql(DQ, t) == Items.TableSql(Items.ItemTable(None, t.table, t.alias))
  {
    AppendEmpty(DQ(t.table));
    if t.alias.Some? {
      assert " AS " + DQ(t.alias.value) == Items.QuotedAliasSuffix(t.alias);
      Assoc(DQ(t.table), " AS ", DQ(t.alias.value));
    }
  }

  /** Distinct quote-free tables render differently under double-quote wrapping. */
  lemma ModelTableInjective(t: ModelTable, u: ModelTable)
    requires QuoteFree(t.table) && QuoteFree(u.table)
    requires ModelTableSql(DQ, t) == ModelTableSql(DQ, u)
    ensures t == u
  {
    ModelTableMatchesItems(t);
    ModelTableMatchesItems(u);
    Items.TableRoundTrip(Items.ItemTable(None, t.table, t.alias));
    Items.TableRoundTrip(Items.ItemTable(None, u.table, u.alias));
  }

  /**
   * The two initialisers from a `Column` agree: without an alias, the
   * `Models` column and the `DBItems` column render the same text.
   */
  lemma ColumnOfMatchesItems(c: Column)
    ensures ModelColumnSql(DQ, ModelColumnOf(c, None)) == Items.ColumnSql(Items.ItemColumnOf(c, None))
  {
    ModelColumnMatchesItems(ModelColumnOf(c, None));
    AppendEmpty(Items.ColumnSql(Items.ItemColumnOf(c, None)));
  }
}
