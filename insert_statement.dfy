/**
 * The INSERT statement an insert builder renders (`DBInsertBuilder.swift`,
 * `serialize()`): the WITH prefix, "INSERT INTO" and the target table, the
 * column list, " VALUES " and the rows, RETURNING, then ";".
 *
 * In each row, in row-major order, a value that is a quoted literal is
 * written inline and any other value becomes the next placeholder, its
 * bind appended.  `ValueTexts`, `Lines` and the bind lists are defined
 * from the end, as the loops build them; `RowsPieces` lays the same text
 * out as pieces, so that `RowsAligned` can state that placeholder `$p`
 * names the `p`-th bind.
 */
module InsertStatement {
  import opened Fragments
  import opened Clauses

  /**
   * The fields `serialize()` reads, and the ON CONFLICT fields the clause
   * methods write, which `serialize()` does not read.
   */
  datatype InsertState = InsertState(
    with: Option<Raw>, inserts: seq<seq<Bind>>, columns: seq<string>, returning: seq<string>,
    onConflict: seq<string>, setsForUpdate: seq<Raw>, isDoNothing: bool)

  // ---- One row ----

  /** The binds a row sends: its values that are not quoted literals, in order. */
  function ValueBinds(vs: seq<Bind>): (r: seq<Bind>)
    ensures |r| <= |vs|
  {
    if vs == [] then []
    else ValueBinds(vs[..|vs| - 1]) + (if IsQuotedLiteral(vs[|vs| - 1]) then [] else [vs[|vs| - 1]])
  }

  /** A value after `$k`: inline when it is a quoted literal, otherwise the placeholder `$k+1`. */
  function ValuePiece(v: Bind, k: nat): Piece {
    if IsQuotedLiteral(v) then Text(v.s) else Param(k + 1, None)
  }

  /** The item texts of a row whose first placeholder follows `$j`. */
  function ValueTexts(vs: seq<Bind>, j: nat): (r: seq<string>)
    ensures |r| == |vs|
  {
    if vs == [] then []
    else ValueTexts(vs[..|vs| - 1], j) + [PieceText(ValuePiece(vs[|vs| - 1], j + |ValueBinds(vs[..|vs| - 1])|))]
  }

  /** A row: its items joined by ", ", in parentheses. */
  function RowText(vs: seq<Bind>, j: nat): string {
    "(" + Join(ValueTexts(vs, j), ", ") + ")"
  }

  // ---- All rows ----

  /** The binds the rows send, row by row. */
  function RowsBinds(rows: seq<seq<Bind>>): seq<Bind> {
    if rows == [] then []
    else RowsBinds(rows[..|rows| - 1]) + ValueBinds(rows[|rows| - 1])
  }

  /** The rendered rows, each numbered on from the binds the rows before it send. */
  function Lines(rows: seq<seq<Bind>>, j: nat): (r: seq<string>)
    ensures |r| == |rows|
  {
    if rows == [] then []
    else Lines(rows[..|rows| - 1], j) + [RowText(rows[|rows| - 1], j + |RowsBinds(rows[..|rows| - 1])|)]
  }

  // ---- The statement ----

  function WithPart(with: Option<Raw>): string {
    if with.Some? then "WITH " + with.value.sql + " " else ""
  }

  function WithBinds(with: Option<Raw>): seq<Bind> {
    if with.Some? then with.value.binds else []
  }

  /** " (" and the columns joined by ", ", then ")"; nothing without columns. */
  function ColumnsText(columns: seq<string>): string {
    if |columns| > 0 then " (" + Join(columns, ", ") + ")" else ""
  }

  /** Everything `serialize` writes before the rows: WITH, INSERT INTO and the table, the columns and " VALUES ". */
  function Head(target: string, s: InsertState): Raw {
    Raw(WithPart(s.with) + ("INSERT INTO " + target) + ColumnsText(s.columns) + " VALUES ", WithBinds(s.with), None)
  }

  /** The head followed by the rows, joined by ", ". */
  function Body(target: string, s: InsertState): Raw {
    var head := Head(target, s);
    Raw(head.sql + Join(Lines(s.inserts, |head.binds|), ", "), head.binds + RowsBinds(s.inserts), None)
  }

  /** `serialize()`, for the rendered target table. */
  function InsertSql(target: string, s: InsertState): Raw {
    var body := Body(target, s);
    Raw(body.sql + ListClause(" RETURNING ", s.returning) + ";", body.binds, None)
  }

  // ---- Writing it ----

  /** The inner loop over one row's values, giving the row's items; `binds` gains the row's non-literal values. */
  method WriteRow(vs: seq<Bind>, j: nat, binds: seq<Bind>) returns (items: seq<string>, j': nat, binds': seq<Bind>)
    ensures items == ValueTexts(vs, j)
    ensures binds' == binds + ValueBinds(vs)
    ensures j' == j + |ValueBinds(vs)|
  {
    items, j', binds' := [], j, binds;
    for i := 0 to |vs|
      invariant items == ValueTexts(vs[..i], j)
      invariant binds' == binds + ValueBinds(vs[..i])
      invariant j' == j + |ValueBinds(vs[..i])|
    {
      assert vs[..i + 1][..i] == vs[..i];
      var value := vs[i];
      if IsQuotedLiteral(value) {
        items := items + [value.s];
      } else {
        j' := j' + 1;
        AppendEmpty("$" + NatToString(j'));
        assert PieceText(ValuePiece(value, j' - 1)) == "$" + NatToString(j');
        items := items + ["$" + NatToString(j')];
        Assoc(binds, ValueBinds(vs[..i]), [value]);
        binds' := binds' + [value];
      }
    }
    assert vs[..|vs|] == vs;
  }

  /** The outer loop over the rows: one line per row, in order. */
  method WriteRows(rows: seq<seq<Bind>>, j0: nat, binds0: seq<Bind>) returns (lines: seq<string>, j: nat, binds: seq<Bind>)
    ensures lines == Lines(rows, j0)
    ensures binds == binds0 + RowsBinds(rows)
    ensures j == j0 + |RowsBinds(rows)|
  {
    lines, j, binds := [], j0, binds0;
    for i := 0 to |rows|
      invariant lines == Lines(rows[..i], j0)
      invariant binds == binds0 + RowsBinds(rows[..i])
      invariant j == j0 + |RowsBinds(rows[..i])|
    {
      assert rows[..i + 1][..i] == rows[..i];
      var items;
      items, j, binds := WriteRow(rows[i], j, binds);
      Assoc(binds0, RowsBinds(rows[..i]), ValueBinds(rows[i]));
      lines := lines + ["(" + Join(items, ", ") + ")"];
    }
    assert rows[..|rows|] == rows;
  }

  /** `serialize()`, step by step. */
  method WriteInsert(target: string, s: InsertState) returns (query: Raw)
    ensures query == InsertSql(target, s)
  {
    var sql := "";
    var binds: seq<Bind> := [];
    if s.with.Some? {
      sql := "WITH " + s.with.value.sql + " ";
      binds := s.with.value.binds;
    }
    var j := |binds|;
    sql := sql + ("INSERT INTO " + target);
    if |s.columns| > 0 {
      sql := sql + (" (" + Join(s.columns, ", ") + ")");
    } else {
      AppendEmpty(sql);
    }
    sql := sql + " VALUES ";
    var lines;
    lines, j, binds := WriteRows(s.inserts, j, binds);
    sql := sql + Join(lines, ", ");
    if |s.returning| > 0 {
      sql := sql + (" RETURNING " + Join(s.returning, ", "));
    } else {
      AppendEmpty(sql);
    }
    query := Raw(sql + ";", binds, None);
  }

  // ---- What each item is ----

  /**
   * Item `i` of a row is its value inline when that is a quoted literal,
   * and otherwise the placeholder after `$j` and the binds the items
   * before it send.
   */
  lemma {:induction false} ValueTextAt(vs: seq<Bind>, j: nat, i: nat)
    requires i < |vs|
    ensures ValueTexts(vs, j)[i]
         == if IsQuotedLiteral(vs[i]) then vs[i].s else PlaceholderText(j + |ValueBinds(vs[..i])| + 1, None)
  {
    var init := vs[..|vs| - 1];
    if i < |vs| - 1 {
      ValueTextAt(init, j, i);
      assert init[..i] == vs[..i];
    } else {
      assert vs[..i] == init;
    }
  }

  /** A row without quoted literals sends all its values. */
  lemma {:induction false} ValueBindsAll(vs: seq<Bind>)
    requires forall i :: 0 <= i < |vs| ==> !IsQuotedLiteral(vs[i])
    ensures ValueBinds(vs) == vs
  {
    if vs != [] {
      var init := vs[..|vs| - 1];
      ValueBindsAll(init);
      assert init + [vs[|vs| - 1]] == vs;
    }
  }

  /** A row of quoted literals sends nothing. */
  lemma {:induction false} ValueBindsNone(vs: seq<Bind>)
    requires forall i :: 0 <= i < |vs| ==> IsQuotedLiteral(vs[i])
    ensures ValueBinds(vs) == []
  {
    if vs != [] {
      ValueBindsNone(vs[..|vs| - 1]);
    }
  }

  /** Every bind a row sends is one of its values, and not a quoted literal. */
  lemma {:induction false} ValueBindsFrom(vs: seq<Bind>)
    ensures forall b :: b in ValueBinds(vs) ==> b in vs && !IsQuotedLiteral(b)
  {
    if vs != [] {
      var init := vs[..|vs| - 1];
      ValueBindsFrom(init);
      assert forall b :: b in init ==> b in vs;
    }
  }

  // ---- Alignment ----

  /** A row's items as pieces, ", " between them. */
  function ItemPieces(vs: seq<Bind>, j: nat): seq<Piece> {
    if |vs| == 0 then []
    else if |vs| == 1 then [ValuePiece(vs[0], j)]
    else ItemPieces(vs[..|vs| - 1], j) + [Text(", "), ValuePiece(vs[|vs| - 1], j + |ValueBinds(vs[..|vs| - 1])|)]
  }

  /** A row as pieces, in parentheses. */
  function RowPieces(vs: seq<Bind>, j: nat): seq<Piece> {
    [Text("(")] + ItemPieces(vs, j) + [Text(")")]
  }

  /** The rows as pieces, ", " between them. */
  function RowsPieces(rows: seq<seq<Bind>>, j: nat): seq<Piece> {
    if |rows| == 0 then []
    else if |rows| == 1 then RowPieces(rows[0], j)
    else RowsPieces(rows[..|rows| - 1], j) + [Text(", ")] + RowPieces(rows[|rows| - 1], j + |RowsBinds(rows[..|rows| - 1])|)
  }

  /** Joining one more part. */
  lemma {:induction false} JoinSnoc(ps: seq<string>, p: string, sep: string)
    requires |ps| > 0
    ensures Join(ps + [p], sep) == Join(ps, sep) + sep + p
  {
    if |ps| == 1 {
      assert (ps + [p])[1..] == [p];
    } else {
      assert (ps + [p])[1..] == ps[1..] + [p];
      JoinSnoc(ps[1..], p, sep);
      Assoc(ps[0] + sep, Join(ps[1..], sep), sep + p);
      Assoc(ps[0] + sep + Join(ps[1..], sep), sep, p);
      Assoc(Join(ps[1..], sep), sep, p);
    }
  }

  /** Pieces, a separator and one more piece list: text only. */
  lemma SnocText(a: seq<Piece>, sep: string, b: seq<Piece>)
    ensures Flatten(a + [Text(sep)] + b) == Flatten(a) + sep + Flatten(b)
  {
    PiecePair(Text(sep), Text(""));
    FlattenAppend(a, [Text(sep)]);
    FlattenAppend(a + [Text(sep)], b);
  }

  /** Pieces, a separator and one more piece list: placeholders only. */
  lemma SnocPlaceholders(a: seq<Piece>, sep: string, b: seq<Piece>)
    ensures Placeholders(a + [Text(sep)] + b) == Placeholders(a) + Placeholders(b)
  {
    PiecePair(Text(sep), Text(""));
    PlaceholdersAppend(a, [Text(sep)]);
    PlaceholdersAppend(a + [Text(sep)], b);
    AppendEmpty(Placeholders(a));
  }

  /** The binds of a row with one more value. */
  lemma ValueBindsLength(vs: seq<Bind>)
    requires |vs| > 0
    ensures |ValueBinds(vs)| == |ValueBinds(vs[..|vs| - 1])| + (if IsQuotedLiteral(vs[|vs| - 1]) then 0 else 1)
  {
  }

  /** One value's piece: its text, and one placeholder `$k+1` unless it is inline. */
  lemma ValuePieceAligned(v: Bind, k: nat)
    ensures Flatten([ValuePiece(v, k)]) == PieceText(ValuePiece(v, k))
    ensures Placeholders([ValuePiece(v, k)]) == Range(k + 1, if IsQuotedLiteral(v) then 0 else 1)
  {
    PiecePair(ValuePiece(v, k), Text(""));
  }

  /**
   * A row's pieces spell its items joined by ", ", and their placeholders
   * are `$j+1, ..., $j+n` for the `n` binds the row sends.
   */
  lemma ItemsAligned(vs: seq<Bind>, j: nat)
    ensures Flatten(ItemPieces(vs, j)) == Join(ValueTexts(vs, j), ", ")
    ensures Placeholders(ItemPieces(vs, j)) == Range(j + 1, |ValueBinds(vs)|)
  {
    ItemsText(vs, j);
    ItemsPlaceholders(vs, j);
  }

  /** A row's pieces spell its items joined by ", ". */
  lemma {:induction false} ItemsText(vs: seq<Bind>, j: nat)
    ensures Flatten(ItemPieces(vs, j)) == Join(ValueTexts(vs, j), ", ")
  {
    if |vs| == 1 {
      assert vs[..0] == [];
      ValuePieceAligned(vs[0], j);
    } else if |vs| > 1 {
      var init, last := vs[..|vs| - 1], vs[|vs| - 1];
      var k := j + |ValueBinds(init)|;
      assert ItemPieces(vs, j) == ItemPieces(init, j) + [Text(", ")] + [ValuePiece(last, k)];
      assert ValueTexts(vs, j) == ValueTexts(init, j) + [PieceText(ValuePiece(last, k))];
      ItemsText(init, j);
      ValuePieceAligned(last, k);
      SnocText(ItemPieces(init, j), ", ", [ValuePiece(last, k)]);
      JoinSnoc(ValueTexts(init, j), PieceText(ValuePiece(last, k)), ", ");
    }
  }

  /** A row's placeholders are `$j+1, ..., $j+n` for the `n` binds it sends. */
  lemma {:induction false} ItemsPlaceholders(vs: seq<Bind>, j: nat)
    ensures Placeholders(ItemPieces(vs, j)) == Range(j + 1, |ValueBinds(vs)|)
  {
    if |vs| == 1 {
      assert vs[..0] == [];
      ValuePieceAligned(vs[0], j);
    } else if |vs| > 1 {
      var init, last := vs[..|vs| - 1], vs[|vs| - 1];
      var k := j + |ValueBinds(init)|;
      assert ItemPieces(vs, j) == ItemPieces(init, j) + [Text(", ")] + [ValuePiece(last, k)];
      ItemsPlaceholders(init, j);
      ValuePieceAligned(last, k);
      SnocPlaceholders(ItemPieces(init, j), ", ", [ValuePiece(last, k)]);
      ValueBindsLength(vs);
      RangeJoin(j + 1, |ValueBinds(init)|, if IsQuotedLiteral(last) then 0 else 1, k + 1, |ValueBinds(vs)|);
    }
  }

  /** A row's pieces spell the row. */
  lemma RowAligned(vs: seq<Bind>, j: nat)
    ensures Flatten(RowPieces(vs, j)) == RowText(vs, j)
    ensures Placeholders(RowPieces(vs, j)) == Range(j + 1, |ValueBinds(vs)|)
  {
    ItemsAligned(vs, j);
    WrappedText("(", ItemPieces(vs, j), ")");
    RowPlaceholders(vs, j);
  }

  /** A row's placeholders are `$j+1, ..., $j+n` for the `n` binds it sends. */
  lemma RowPlaceholders(vs: seq<Bind>, j: nat)
    ensures Placeholders(RowPieces(vs, j)) == Range(j + 1, |ValueBinds(vs)|)
  {
    ItemsAligned(vs, j);
    WrappedPlaceholders("(", ItemPieces(vs, j), ")");
  }

  /** The rows' pieces spell the rows joined by ", ". */
  lemma {:induction false} RowsText(rows: seq<seq<Bind>>, j: nat)
    ensures Flatten(RowsPieces(rows, j)) == Join(Lines(rows, j), ", ")
  {
    if |rows| == 1 {
      assert rows[..0] == [];
      RowAligned(rows[0], j);
    } else if |rows| > 1 {
      var init, last := rows[..|rows| - 1], rows[|rows| - 1];
      var k := j + |RowsBinds(init)|;
      assert RowsPieces(rows, j) == RowsPieces(init, j) + [Text(", ")] + RowPieces(last, k);
      assert Lines(rows, j) == Lines(init, j) + [RowText(last, k)];
      RowsText(init, j);
      RowAligned(last, k);
      SnocText(RowsPieces(init, j), ", ", RowPieces(last, k));
      JoinSnoc(Lines(init, j), RowText(last, k), ", ");
    }
  }

  /**
   * The placeholders of the rows' pieces are `$j+1, ..., $j+n` for the `n`
   * binds the rows send, in row-major order.
   */
  lemma {:induction false} RowsPlaceholders(rows: seq<seq<Bind>>, j: nat)
    ensures Placeholders(RowsPieces(rows, j)) == Range(j + 1, |RowsBinds(rows)|)
  {
    if |rows| == 1 {
      assert rows[..0] == [];
      RowPlaceholders(rows[0], j);
    } else if |rows| > 1 {
      var init, last := rows[..|rows| - 1], rows[|rows| - 1];
      var k := j + |RowsBinds(init)|;
      assert RowsPieces(rows, j) == RowsPieces(init, j) + [Text(", ")] + RowPieces(last, k);
      assert |RowsBinds(rows)| == |RowsBinds(init)| + |ValueBinds(last)|;
      RowsPlaceholders(init, j);
      RowPlaceholders(last, k);
      SnocPlaceholders(RowsPieces(init, j), ", ", RowPieces(last, k));
      RangeJoin(j + 1, |RowsBinds(init)|, |ValueBinds(last)|, k + 1, |RowsBinds(rows)|);
    }
  }

  /**
   * Placeholder/bind alignment for the whole statement: the rows extend
   * the head, whose WITH fragment carries its own binds, by placeholders
   * numbered on from those binds, one per value that is not a quoted
   * literal, so `$p` names the `p`-th bind of the statement.
   */
  lemma InsertAligned(target: string, s: InsertState)
    ensures Extends(Head(target, s), Body(target, s), RowsPieces(s.inserts, |WithBinds(s.with)|), RowsBinds(s.inserts))
  {
    RowsText(s.inserts, |WithBinds(s.with)|);
    RowsPlaceholders(s.inserts, |WithBinds(s.with)|);
  }

  // ---- The whole statement ----

  /** The head is kept at the start of the statement, and the binds are the WITH binds followed by the rows'. */
  lemma InsertKeeps(target: string, s: InsertState)
    ensures Head(target, s).sql <= InsertSql(target, s).sql
    ensures InsertSql(target, s).binds == WithBinds(s.with) + RowsBinds(s.inserts)
  {
    var head := Head(target, s);
    var body := Body(target, s);
    assert head.sql <= body.sql;
    assert body.sql <= body.sql + ListClause(" RETURNING ", s.returning) + ";";
  }

  /**
   * The statement starts with "WITH " exactly when a WITH fragment is set,
   * and with "INSERT INTO " and the target otherwise.
   */
  lemma InsertStarts(target: string, s: InsertState)
    ensures ("WITH " <= InsertSql(target, s).sql) <==> s.with.Some?
    ensures s.with.None? ==> "INSERT INTO " + target <= InsertSql(target, s).sql
  {
    var h := WithPart(s.with) + ("INSERT INTO " + target);
    var r := InsertSql(target, s).sql;
    InsertKeeps(target, s);
    assert h <= Head(target, s).sql;
    if s.with.Some? {
      assert "WITH " <= h;
    } else {
      assert h == "INSERT INTO " + target;
      assert h[0] == 'I';
    }
    PrefixThrough("WITH ", h, r);
  }

  /** The statement always ends with ";". */
  lemma InsertEnds(target: string, s: InsertState)
    ensures EndsWith(InsertSql(target, s).sql, ";")
  {
    var r := InsertSql(target, s).sql;
    assert r[|r| - 1..] == ";";
  }
}
