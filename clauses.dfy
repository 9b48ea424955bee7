/**
 * Clauses the statement builders share: the WITH prefix, WHERE with the
 * builder's two filter lists (`serializeFilter` of
 * `DBFilterSerialize.swift` after " WHERE"), and keyword lists such as
 * GROUP BY or RETURNING.
 */
module Clauses {
  import opened Fragments
  import FilterSerialize

  /** "WITH " and the WITH fragments joined by ", ", then a space; nothing without any. */
  function WithText(with: seq<Raw>): string {
    if |with| > 0 then "WITH " + (Join(Sqls(with), ", ") + " ") else ""
  }

  /** " WHERE" and both filter lists when either is non-empty. */
  function WhereSql(raw: Raw, filterAnd: seq<Raw>, filterOr: seq<Raw>, andSep: string, orSep: string): Raw {
    if |filterAnd| + |filterOr| > 0 then
      FilterSerialize.Filter(Raw(raw.sql + " WHERE", raw.binds, raw.cast), filterAnd, filterOr, andSep, orSep)
    else raw
  }

  /** A keyword and the items joined by ", ", or nothing for no items (GROUP BY, FROM, RETURNING, ...). */
  function ListClause(keyword: string, items: seq<string>): string {
    if |items| > 0 then keyword + Join(items, ", ") else ""
  }

  /** `if filterAnd.count + filterOr.count > 0 { query.sql += " WHERE"; query = serializeFilter(source: query) }`. */
  method WriteWhere(raw: Raw, filterAnd: seq<Raw>, filterOr: seq<Raw>, andSep: string, orSep: string)
    returns (query: Raw)
    ensures query == WhereSql(raw, filterAnd, filterOr, andSep, orSep)
  {
    query := raw;
    if |filterAnd| + |filterOr| > 0 {
      query := query.(sql := query.sql + " WHERE");
      query := FilterSerialize.SerializeFilter(query, filterAnd, filterOr, andSep, orSep);
    }
  }

  /**
   * The WHERE clause keeps the text before it; " WHERE" follows it exactly
   * when either list is non-empty; the binds the AND list sends and then
   * those the OR list sends are appended.
   */
  lemma WhereKeeps(raw: Raw, filterAnd: seq<Raw>, filterOr: seq<Raw>, andSep: string, orSep: string)
    ensures raw.sql <= WhereSql(raw, filterAnd, filterOr, andSep, orSep).sql
    ensures |filterAnd| + |filterOr| > 0 ==> raw.sql + " WHERE" <= WhereSql(raw, filterAnd, filterOr, andSep, orSep).sql
    ensures |filterAnd| + |filterOr| == 0 ==> WhereSql(raw, filterAnd, filterOr, andSep, orSep) == raw
    ensures WhereSql(raw, filterAnd, filterOr, andSep, orSep).binds
         == raw.binds + (FilterSerialize.Sent(filterAnd) + FilterSerialize.Sent(filterOr))
    ensures WhereSql(raw, filterAnd, filterOr, andSep, orSep).cast == raw.cast
  {
    if |filterAnd| + |filterOr| > 0 {
      var w := Raw(raw.sql + " WHERE", raw.binds, raw.cast);
      FilterSerialize.FilterAligned(w, filterAnd, filterOr, andSep, orSep);
      assert raw.sql <= w.sql;
    } else {
      assert FilterSerialize.Sent([]) == [];
      AppendEmpty(raw.binds);
    }
  }

  /** The pieces of the WHERE clause. */
  function WherePieces(raw: Raw, filterAnd: seq<Raw>, filterOr: seq<Raw>, andSep: string, orSep: string): seq<Piece> {
    if |filterAnd| + |filterOr| > 0 then
      [Text(" WHERE")] + FilterSerialize.FilterPieces(Raw(raw.sql + " WHERE", raw.binds, raw.cast), filterAnd, filterOr, andSep, orSep)
    else []
  }

  /** The WHERE clause is an aligned extension of the text before it. */
  lemma WhereAligned(raw: Raw, filterAnd: seq<Raw>, filterOr: seq<Raw>, andSep: string, orSep: string)
    ensures Extends(raw, WhereSql(raw, filterAnd, filterOr, andSep, orSep),
                    WherePieces(raw, filterAnd, filterOr, andSep, orSep),
                    FilterSerialize.Sent(filterAnd) + FilterSerialize.Sent(filterOr))
  {
    if |filterAnd| + |filterOr| > 0 {
      var w := Raw(raw.sql + " WHERE", raw.binds, raw.cast);
      FilterSerialize.FilterAligned(w, filterAnd, filterOr, andSep, orSep);
      assert Extends(raw, w, [Text(" WHERE")], []) by {
        PiecePair(Text(" WHERE"), Text(""));
        AppendEmpty(raw.binds);
      }
      ExtendsChain(raw, w, WhereSql(raw, filterAnd, filterOr, andSep, orSep), [Text(" WHERE")],
                   FilterSerialize.FilterPieces(w, filterAnd, filterOr, andSep, orSep),
                   [], FilterSerialize.Sent(filterAnd) + FilterSerialize.Sent(filterOr));
    } else {
      assert FilterSerialize.Sent([]) == [];
      ExtendsNothing(raw);
    }
  }


  /**
   * The WITH prefix as the update and delete builders write it: the text
   * at once, then the binds of each fragment in a loop.
   */
  method WriteWith(with: seq<Raw>) returns (query: Raw)
    ensures query == Raw(WithText(with), AllBinds(with), None)
  {
    query := DBRaw("", []);
    if |with| > 0 {
      query := query.(sql := query.sql + "WITH ");
      query := query.(sql := query.sql + (Join(Sqls(with), ", ") + " "));
      for i := 0 to |with|
        invariant query.binds == AllBinds(with[..i])
        invariant query.sql == WithText(with) && query.cast == None
      {
        assert with[..i + 1][..i] == with[..i];
        query := query.(binds := query.binds + with[i].binds);
      }
      assert with[..|with|] == with;
    }
  }
  /** When `r` starts with `h` and `h` is at least as long as `p`, `r` starts with `p` exactly when `h` does. */
  lemma PrefixThrough(p: string, h: string, r: string)
    requires h <= r && |p| <= |h|
    ensures (p <= r) <==> (p <= h)
  {
    assert r[..|p|] == h[..|p|];
  }

  /**
   * A statement whose text starts with the WITH prefix and then a keyword
   * not beginning with "W" starts with "WITH " exactly when there are WITH
   * fragments, and with the keyword otherwise.
   */
  lemma WithStarts(with: seq<Raw>, keyword: string, r: string)
    requires WithText(with) + keyword <= r && |keyword| >= 5 && keyword[0] != 'W'
    ensures ("WITH " <= r) <==> |with| > 0
    ensures |with| == 0 ==> keyword <= r
  {
    var h := WithText(with) + keyword;
    if |with| > 0 {
      assert "WITH " <= h;
    } else {
      assert h == keyword;
      assert h[0] != 'W';
    }
    PrefixThrough("WITH ", h, r);
  }

  // ---- The cursor or WHERE step of the update and delete builders ----

  /** `" WHERE CURRENT OF " + cursor` when a cursor is set; otherwise WHERE with the filter lists. */
  function CursorOrWhere(raw: Raw, cursor: Option<string>, filterAnd: seq<Raw>, filterOr: seq<Raw>, andSep: string, orSep: string): Raw {
    if cursor.Some? then Raw(raw.sql + (" WHERE CURRENT OF " + cursor.value), raw.binds, raw.cast)
    else WhereSql(raw, filterAnd, filterOr, andSep, orSep)
  }

  method WriteCursorOrWhere(raw: Raw, cursor: Option<string>, filterAnd: seq<Raw>, filterOr: seq<Raw>, andSep: string, orSep: string)
    returns (query: Raw)
    ensures query == CursorOrWhere(raw, cursor, filterAnd, filterOr, andSep, orSep)
  {
    if cursor.Some? {
      query := raw.(sql := raw.sql + (" WHERE CURRENT OF " + cursor.value));
    } else {
      query := WriteWhere(raw, filterAnd, filterOr, andSep, orSep);
    }
  }

  function CursorPieces(raw: Raw, cursor: Option<string>, filterAnd: seq<Raw>, filterOr: seq<Raw>, andSep: string, orSep: string): seq<Piece> {
    if cursor.Some? then [Text(" WHERE CURRENT OF " + cursor.value)]
    else WherePieces(raw, filterAnd, filterOr, andSep, orSep)
  }

  /** The binds this step sends: none under a cursor, the filters' otherwise. */
  function CursorSent(cursor: Option<string>, filterAnd: seq<Raw>, filterOr: seq<Raw>): seq<Bind> {
    if cursor.Some? then [] else FilterSerialize.Sent(filterAnd) + FilterSerialize.Sent(filterOr)
  }

  /** The step is an aligned extension of the text before it. */
  lemma CursorAligned(raw: Raw, cursor: Option<string>, filterAnd: seq<Raw>, filterOr: seq<Raw>, andSep: string, orSep: string)
    ensures Extends(raw, CursorOrWhere(raw, cursor, filterAnd, filterOr, andSep, orSep),
                    CursorPieces(raw, cursor, filterAnd, filterOr, andSep, orSep), CursorSent(cursor, filterAnd, filterOr))
  {
    if cursor.Some? {
      PiecePair(Text(" WHERE CURRENT OF " + cursor.value), Text(""));
      AppendEmpty(raw.binds);
    } else {
      WhereAligned(raw, filterAnd, filterOr, andSep, orSep);
    }
  }

  /**
   * Under a cursor the filters are ignored: the step is the same as with
   * no filters, writes no WHERE of its own and sends no bind.  Without a
   * cursor it is the WHERE step.
   */
  lemma CursorIgnoresFilters(raw: Raw, cursor: Option<string>, filterAnd: seq<Raw>, filterOr: seq<Raw>, andSep: string, orSep: string)
    ensures cursor.Some? ==>
      CursorOrWhere(raw, cursor, filterAnd, filterOr, andSep, orSep) == CursorOrWhere(raw, cursor, [], [], andSep, orSep)
      && CursorOrWhere(raw, cursor, filterAnd, filterOr, andSep, orSep).binds == raw.binds
    ensures cursor.None? ==>
      CursorOrWhere(raw, cursor, filterAnd, filterOr, andSep, orSep) == WhereSql(raw, filterAnd, filterOr, andSep, orSep)
  {
  }

  /** The step keeps the text before it and appends the binds it sends. */
  lemma CursorKeeps(raw: Raw, cursor: Option<string>, filterAnd: seq<Raw>, filterOr: seq<Raw>, andSep: string, orSep: string)
    ensures raw.sql <= CursorOrWhere(raw, cursor, filterAnd, filterOr, andSep, orSep).sql
    ensures CursorOrWhere(raw, cursor, filterAnd, filterOr, andSep, orSep).binds == raw.binds + CursorSent(cursor, filterAnd, filterOr)
  {
    CursorAligned(raw, cursor, filterAnd, filterOr, andSep, orSep);
  }

  /** Text without placeholders appended to a fragment is an aligned extension that sends no bind. */
  lemma ExtendsText(raw: Raw, t: string)
    ensures Extends(raw, Raw(raw.sql + t, raw.binds, raw.cast), [Text(t)], [])
  {
    PiecePair(Text(t), Text(""));
    AppendEmpty(raw.binds);
  }
}
