/**
 * The DELETE statement a delete builder renders (`DBDeleteBuilder.swift`,
 * `serialize(end:)`): the WITH prefix, "DELETE FROM" and the table, USING,
 * then either " WHERE CURRENT OF" a cursor or WHERE with the two filter
 * lists, RETURNING, and the caller's ending.
 */
module DeleteStatement {
  import opened Fragments
  import opened Clauses
  import FilterSerialize

  /** The fields `serialize(end:)` reads. */
  datatype DeleteState = DeleteState(
    with: seq<Raw>, from: string, using: seq<string>, cursor: Option<string>,
    filterAnd: seq<Raw>, filterOr: seq<Raw>, returning: seq<string>)

  /** The WITH prefix, "DELETE FROM " and the table, USING, with the WITH fragments' binds. */
  function Head(s: DeleteState): Raw {
    Raw(WithText(s.with) + ("DELETE FROM " + s.from) + ListClause(" USING ", s.using), AllBinds(s.with), None)
  }

  /** Everything before RETURNING. */
  function Body(s: DeleteState, andSep: string, orSep: string): Raw {
    CursorOrWhere(Head(s), s.cursor, s.filterAnd, s.filterOr, andSep, orSep)
  }

  /** `serialize(end:)`. */
  function DeleteSql(s: DeleteState, andSep: string, orSep: string, end: string): Raw {
    var body := Body(s, andSep, orSep);
    Raw(body.sql + ListClause(" RETURNING ", s.returning) + end, body.binds, None)
  }

  /** `serialize(end:)`, step by step. */
  method WriteDelete(s: DeleteState, andSep: string, orSep: string, end: string) returns (query: Raw)
    ensures query == DeleteSql(s, andSep, orSep, end)
  {
    query := WriteWith(s.with);
    query := query.(sql := query.sql + ("DELETE FROM " + s.from));
    if |s.using| > 0 {
      query := query.(sql := query.sql + (" USING " + Join(s.using, ", ")));
    } else {
      AppendEmpty(query.sql);
    }
    query := WriteCursorOrWhere(query, s.cursor, s.filterAnd, s.filterOr, andSep, orSep);
    var sql := query.sql;
    if |s.returning| > 0 {
      sql := sql + (" RETURNING " + Join(s.returning, ", "));
    } else {
      AppendEmpty(sql);
    }
    query := Raw(sql + end, query.binds, None);
  }

  /** The head and the cursor or WHERE step are kept at the head of the statement. */
  lemma DeleteKeeps(s: DeleteState, andSep: string, orSep: string, end: string)
    ensures Head(s).sql <= Body(s, andSep, orSep).sql
    ensures Body(s, andSep, orSep).sql <= DeleteSql(s, andSep, orSep, end).sql
  {
    CursorKeeps(Head(s), s.cursor, s.filterAnd, s.filterOr, andSep, orSep);
    var body := Body(s, andSep, orSep);
    assert body.sql <= body.sql + ListClause(" RETURNING ", s.returning) + end;
  }

  /**
   * The statement starts with "WITH " exactly when there are WITH
   * fragments, and with "DELETE FROM " and the table otherwise.
   */
  lemma DeleteStarts(s: DeleteState, andSep: string, orSep: string, end: string)
    ensures ("WITH " <= DeleteSql(s, andSep, orSep, end).sql) <==> |s.with| > 0
    ensures |s.with| == 0 ==> "DELETE FROM " + s.from <= DeleteSql(s, andSep, orSep, end).sql
  {
    DeleteKeeps(s, andSep, orSep, end);
    var r := DeleteSql(s, andSep, orSep, end).sql;
    assert WithText(s.with) + ("DELETE FROM " + s.from) <= Head(s).sql;
    WithStarts(s.with, "DELETE FROM " + s.from, r);
  }

  /** The statement ends with the caller's ending. */
  lemma DeleteEnds(s: DeleteState, andSep: string, orSep: string, end: string)
    ensures EndsWith(DeleteSql(s, andSep, orSep, end).sql, end)
  {
    var r := DeleteSql(s, andSep, orSep, end).sql;
    assert r[|r| - |end|..] == end;
  }

  /** The binds, in order: those of the WITH fragments, then, without a cursor, those the two lists send. */
  lemma DeleteBinds(s: DeleteState, andSep: string, orSep: string, end: string)
    ensures DeleteSql(s, andSep, orSep, end).binds == AllBinds(s.with) + CursorSent(s.cursor, s.filterAnd, s.filterOr)
  {
    CursorKeeps(Head(s), s.cursor, s.filterAnd, s.filterOr, andSep, orSep);
  }

  /**
   * Under a cursor the filter lists are ignored: the statement is the one
   * without filters, and " WHERE CURRENT OF " and the cursor's name follow
   * the USING clause.
   */
  lemma DeleteCursor(s: DeleteState, andSep: string, orSep: string, end: string)
    requires s.cursor.Some?
    ensures DeleteSql(s, andSep, orSep, end) == DeleteSql(s.(filterAnd := [], filterOr := []), andSep, orSep, end)
    ensures Head(s).sql + " WHERE CURRENT OF " + s.cursor.value <= DeleteSql(s, andSep, orSep, end).sql
  {
    CursorIgnoresFilters(Head(s), s.cursor, s.filterAnd, s.filterOr, andSep, orSep);
    DeleteKeeps(s, andSep, orSep, end);
  }

  /** Without a cursor, " WHERE" follows the USING clause exactly when either filter list is non-empty. */
  lemma DeleteWhere(s: DeleteState, andSep: string, orSep: string, end: string)
    requires s.cursor.None?
    ensures |s.filterAnd| + |s.filterOr| > 0 ==> Head(s).sql + " WHERE" <= DeleteSql(s, andSep, orSep, end).sql
    ensures |s.filterAnd| + |s.filterOr| == 0 ==> Body(s, andSep, orSep) == Head(s)
  {
    WhereKeeps(Head(s), s.filterAnd, s.filterOr, andSep, orSep);
    DeleteKeeps(s, andSep, orSep, end);
  }

  /**
   * Placeholder/bind alignment: after the head, whose WITH fragments carry
   * their own binds, the WHERE clause writes placeholders numbered on from
   * the head's binds, one per bind it appends.
   */
  lemma DeleteAligned(s: DeleteState, andSep: string, orSep: string)
    ensures Extends(Head(s), Body(s, andSep, orSep),
                    CursorPieces(Head(s), s.cursor, s.filterAnd, s.filterOr, andSep, orSep),
                    CursorSent(s.cursor, s.filterAnd, s.filterOr))
  {
    CursorAligned(Head(s), s.cursor, s.filterAnd, s.filterOr, andSep, orSep);
  }
}
