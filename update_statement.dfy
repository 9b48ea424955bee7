/**
 * The UPDATE statement an update builder renders (`DBUpdateBuilder.swift`,
 * `serialize(end:)`): the WITH prefix, "UPDATE" and the table, " SET " and
 * the assignments, FROM, then either " WHERE CURRENT OF" a cursor or WHERE
 * with the two filter lists, RETURNING, and the caller's ending.
 *
 * The SET list is written item by item like a filter list whose separator
 * is ", ", except that a single value after text ending in " IN " is not
 * parenthesised; it is rendered by `FilterSerialize` with `wrapIn` off.
 */
module UpdateStatement {
  import opened Fragments
  import opened Clauses
  import FilterSerialize
  import Conditions

  /** The fields `serialize(end:)` reads. */
  datatype UpdateState = UpdateState(
    with: seq<Raw>, update: string, sets: seq<Raw>, from: seq<string>, cursor: Option<string>,
    filterAnd: seq<Raw>, filterOr: seq<Raw>, returning: seq<string>)

  /** The WITH prefix, "UPDATE " and the table, with the WITH fragments' binds. */
  function Head(s: UpdateState): Raw {
    Raw(WithText(s.with) + ("UPDATE " + s.update), AllBinds(s.with), None)
  }

  /** " SET " and the assignments, numbered on from the binds before them. */
  function SetsSql(raw: Raw, sets: seq<Raw>): Raw {
    if |sets| == 0 then raw
    else Raw(raw.sql + (" SET " + FilterSerialize.ListText(sets, ", ", false, |raw.binds|)),
             raw.binds + FilterSerialize.Sent(sets), raw.cast)
  }

  /** " FROM " and the tables, when there are any. */
  function FromSql(raw: Raw, from: seq<string>): Raw {
    Raw(raw.sql + ListClause(" FROM ", from), raw.binds, raw.cast)
  }

  /** Everything before RETURNING. */
  function Body(s: UpdateState, andSep: string, orSep: string): Raw {
    CursorOrWhere(FromSql(SetsSql(Head(s), s.sets), s.from), s.cursor, s.filterAnd, s.filterOr, andSep, orSep)
  }

  /** `serialize(end:)`. */
  function UpdateSql(s: UpdateState, andSep: string, orSep: string, end: string): Raw {
    var body := Body(s, andSep, orSep);
    Raw(body.sql + ListClause(" RETURNING ", s.returning) + end, body.binds, None)
  }

  // ---- Writing it ----

  /** Every assignment but the last followed by ", ", then the last. */
  method WriteSets(raw: Raw, sets: seq<Raw>) returns (query: Raw)
    ensures query == SetsSql(raw, sets)
  {
    if |sets| == 0 {
      return raw;
    }
    var last := |sets| - 1;
    var body, binds, j := FilterSerialize.WriteBody(sets, ", ", false, last, raw.binds);
    var text, sent;
    text, sent, j := FilterSerialize.WriteItem(sets[last], j, ", ", false, true,
                                               FilterSerialize.Offset(sets, last, |raw.binds|));
    FilterSerialize.ListStep(sets, ", ", false, |raw.binds|);
    FilterSerialize.ListBindsStep(sets, last);
    Assoc(raw.binds, FilterSerialize.ListBinds(sets, last), FilterSerialize.ItemBinds(sets[last]));
    query := Raw(raw.sql + (" SET " + (body + text)), binds + sent, raw.cast);
  }

  /** `serialize(end:)`, step by step. */
  method WriteUpdate(s: UpdateState, andSep: string, orSep: string, end: string) returns (query: Raw)
    ensures query == UpdateSql(s, andSep, orSep, end)
  {
    query := WriteWith(s.with);
    query := query.(sql := query.sql + ("UPDATE " + s.update));
    query := WriteSets(query, s.sets);
    if |s.from| > 0 {
      query := query.(sql := query.sql + (" FROM " + Join(s.from, ", ")));
    } else {
      AppendEmpty(query.sql);
    }
    query := WriteCursorOrWhere(query, s.cursor, s.filterAnd, s.filterOr, andSep, orSep);
    var sql := query.sql;
    if |s.returning| > 0 {
      sql := sql + (" RETURNING " + Join(s.returning, ", "));
    } else {
      AppendEmpty(sql);
    }
    query := Raw(sql + end, query.binds, None);
  }

  // ---- The SET list ----

  /** The pieces the SET list appends. */
  function SetsPieces(raw: Raw, sets: seq<Raw>): seq<Piece> {
    if |sets| == 0 then []
    else [Text(" SET ")] + FilterSerialize.ListPieces(sets, ", ", false, |raw.binds|) + [Text("")]
  }

  /**
   * The SET list is an aligned extension of the text before it: the
   * placeholders it writes are numbered on from the incoming binds, one per
   * bind the assignments send.
   */
  lemma SetsAligned(raw: Raw, sets: seq<Raw>)
    ensures Extends(raw, SetsSql(raw, sets), SetsPieces(raw, sets), FilterSerialize.Sent(sets))
  {
    if |sets| == 0 {
      ExtendsNothing(raw);
    } else {
      var lt := FilterSerialize.ListText(sets, ", ", false, |raw.binds|);
      FilterSerialize.ListRendering(sets, ", ", false, |raw.binds|);
      AppendEmpty(" SET " + lt);
      ExtendsWrapped(raw, SetsSql(raw, sets), " SET ",
        FilterSerialize.ListPieces(sets, ", ", false, |raw.binds|), "", FilterSerialize.Sent(sets));
    }
  }

  /** An item renders the same with and without the " IN " rule when its text does not end in " IN ". */
  lemma ShapeWithoutIn(f: Raw, conj: string, isLast: bool)
    requires !FilterSerialize.InSuffix(f.sql)
    ensures FilterSerialize.ItemShape(f, conj, false, isLast) == FilterSerialize.ItemShape(f, conj, true, isLast)
  {
  }

  /** The first `n` items render the same with and without the " IN " rule. */
  lemma {:induction false} BodyWithoutIn(fs: seq<Raw>, conj: string, n: nat, j: nat)
    requires n <= |fs|
    requires forall i :: 0 <= i < |fs| ==> !FilterSerialize.InSuffix(fs[i].sql)
    ensures FilterSerialize.BodyPieces(fs, conj, false, n, j) == FilterSerialize.BodyPieces(fs, conj, true, n, j)
  {
    if n > 0 {
      BodyWithoutIn(fs, conj, n - 1, j);
      ShapeWithoutIn(fs[n - 1], conj, false);
    }
  }

  /**
   * The SET list differs from a filter list joined by ", " only by the
   * " IN " rule: when no assignment's text ends in " IN ", the two render
   * identically.
   */
  lemma SetListIsFilterList(fs: seq<Raw>, j: nat)
    requires |fs| > 0
    requires forall i :: 0 <= i < |fs| ==> !FilterSerialize.InSuffix(fs[i].sql)
    ensures FilterSerialize.ListText(fs, ", ", false, j) == FilterSerialize.ListText(fs, ", ", true, j)
  {
    BodyWithoutIn(fs, ", ", |fs| - 1, j);
    ShapeWithoutIn(fs[|fs| - 1], ", ", true);
  }

  /**
   * How one assignment made by `set` renders after `$k`: its text and then
   * its value, inline when it is a quoted literal and as `$k+1` otherwise,
   * followed by ", " unless it is the last.  So `set(col, plus: v)` reads
   * `"col" = "col" + $k+1`.
   */
  lemma AssignmentItem(quote: string -> string, a: Conditions.Assignment, isLast: bool, k: nat)
    ensures FilterSerialize.ShapeText(FilterSerialize.ItemShape(Conditions.SetFragment(quote, a), ", ", false, isLast), k)
         == Conditions.SetFragment(quote, a).sql
            + (if IsQuotedLiteral(Conditions.Assigned(a)) then Conditions.Assigned(a).s else PlaceholderText(k + 1, None))
            + (if isLast then "" else ", ")
  {
    var f := Conditions.SetFragment(quote, a);
    var v := if IsQuotedLiteral(Conditions.Assigned(a)) then Conditions.Assigned(a).s else PlaceholderText(k + 1, None);
    FilterSerialize.ItemSeparator(f, ", ", false, k);
    if IsQuotedLiteral(Conditions.Assigned(a)) {
      FilterSerialize.InlinedItem(f, ", ", false, isLast, k);
    } else {
      FilterSerialize.SingleBindItem(f, ", ", false, k);
    }
    if isLast {
      AppendEmpty(f.sql + v);
    }
  }

  // ---- The whole statement ----

  /** The text before each step is kept at the head of the statement. */
  lemma UpdateKeeps(s: UpdateState, andSep: string, orSep: string, end: string)
    ensures Head(s).sql <= SetsSql(Head(s), s.sets).sql
    ensures SetsSql(Head(s), s.sets).sql <= FromSql(SetsSql(Head(s), s.sets), s.from).sql
    ensures FromSql(SetsSql(Head(s), s.sets), s.from).sql <= Body(s, andSep, orSep).sql
    ensures Body(s, andSep, orSep).sql <= UpdateSql(s, andSep, orSep, end).sql
  {
    var from := FromSql(SetsSql(Head(s), s.sets), s.from);
    CursorKeeps(from, s.cursor, s.filterAnd, s.filterOr, andSep, orSep);
    var body := Body(s, andSep, orSep);
    assert body.sql <= body.sql + ListClause(" RETURNING ", s.returning) + end;
  }

  /**
   * The statement starts with "WITH " exactly when there are WITH
   * fragments, and with "UPDATE " and the table otherwise.
   */
  lemma UpdateStarts(s: UpdateState, andSep: string, orSep: string, end: string)
    ensures ("WITH " <= UpdateSql(s, andSep, orSep, end).sql) <==> |s.with| > 0
    ensures |s.with| == 0 ==> "UPDATE " + s.update <= UpdateSql(s, andSep, orSep, end).sql
  {
    UpdateKeeps(s, andSep, orSep, end);
    WithStarts(s.with, "UPDATE " + s.update, UpdateSql(s, andSep, orSep, end).sql);
  }

  /** The statement ends with the caller's ending. */
  lemma UpdateEnds(s: UpdateState, andSep: string, orSep: string, end: string)
    ensures EndsWith(UpdateSql(s, andSep, orSep, end).sql, end)
  {
    var r := UpdateSql(s, andSep, orSep, end).sql;
    assert r[|r| - |end|..] == end;
  }

  /**
   * The binds, in order: those of the WITH fragments, those the
   * assignments send, then, without a cursor, those the AND list and the
   * OR list send.
   */
  lemma UpdateBinds(s: UpdateState, andSep: string, orSep: string, end: string)
    ensures UpdateSql(s, andSep, orSep, end).binds
         == AllBinds(s.with) + FilterSerialize.Sent(s.sets) + CursorSent(s.cursor, s.filterAnd, s.filterOr)
  {
    SetsAligned(Head(s), s.sets);
    CursorKeeps(FromSql(SetsSql(Head(s), s.sets), s.from), s.cursor, s.filterAnd, s.filterOr, andSep, orSep);
  }

  /**
   * Under a cursor the filter lists are ignored: the statement is the one
   * without filters, and " WHERE CURRENT OF " and the cursor's name follow
   * the FROM clause.
   */
  lemma UpdateCursor(s: UpdateState, andSep: string, orSep: string, end: string)
    requires s.cursor.Some?
    ensures UpdateSql(s, andSep, orSep, end) == UpdateSql(s.(filterAnd := [], filterOr := []), andSep, orSep, end)
    ensures FromSql(SetsSql(Head(s), s.sets), s.from).sql + " WHERE CURRENT OF " + s.cursor.value
            <= UpdateSql(s, andSep, orSep, end).sql
  {
    var from := FromSql(SetsSql(Head(s), s.sets), s.from);
    CursorIgnoresFilters(from, s.cursor, s.filterAnd, s.filterOr, andSep, orSep);
    UpdateKeeps(s, andSep, orSep, end);
  }

  /** Without a cursor, " WHERE" follows the FROM clause exactly when either filter list is non-empty. */
  lemma UpdateWhere(s: UpdateState, andSep: string, orSep: string, end: string)
    requires s.cursor.None?
    ensures |s.filterAnd| + |s.filterOr| > 0 ==>
      FromSql(SetsSql(Head(s), s.sets), s.from).sql + " WHERE" <= UpdateSql(s, andSep, orSep, end).sql
    ensures |s.filterAnd| + |s.filterOr| == 0 ==>
      Body(s, andSep, orSep) == FromSql(SetsSql(Head(s), s.sets), s.from)
  {
    var from := FromSql(SetsSql(Head(s), s.sets), s.from);
    WhereKeeps(from, s.filterAnd, s.filterOr, andSep, orSep);
    UpdateKeeps(s, andSep, orSep, end);
  }

  /** The pieces appended after the head: the SET list, FROM, then the cursor or WHERE step. */
  function UpdatePieces(s: UpdateState, andSep: string, orSep: string): seq<Piece> {
    var sets := SetsSql(Head(s), s.sets);
    var from := FromSql(sets, s.from);
    SetsPieces(Head(s), s.sets) + [Text(ListClause(" FROM ", s.from))]
    + CursorPieces(from, s.cursor, s.filterAnd, s.filterOr, andSep, orSep)
  }

  /**
   * Placeholder/bind alignment for the whole statement: after the head,
   * whose WITH fragments carry their own binds, the SET list and the WHERE
   * clause write placeholders numbered on from the head's binds, one per
   * bind they append, so `$p` names the `p`-th bind of the statement.
   */
  lemma UpdateAligned(s: UpdateState, andSep: string, orSep: string)
    ensures Extends(Head(s), Body(s, andSep, orSep), UpdatePieces(s, andSep, orSep),
                    FilterSerialize.Sent(s.sets) + ([] + CursorSent(s.cursor, s.filterAnd, s.filterOr)))
  {
    var sets := SetsSql(Head(s), s.sets);
    var from := FromSql(sets, s.from);
    SetsAligned(Head(s), s.sets);
    ExtendsText(sets, ListClause(" FROM ", s.from));
    CursorAligned(from, s.cursor, s.filterAnd, s.filterOr, andSep, orSep);
    ExtendsChain(sets, from, Body(s, andSep, orSep), [Text(ListClause(" FROM ", s.from))],
                 CursorPieces(from, s.cursor, s.filterAnd, s.filterOr, andSep, orSep),
                 [], CursorSent(s.cursor, s.filterAnd, s.filterOr));
    ExtendsChain(Head(s), sets, Body(s, andSep, orSep), SetsPieces(Head(s), s.sets),
                 [Text(ListClause(" FROM ", s.from))] + CursorPieces(from, s.cursor, s.filterAnd, s.filterOr, andSep, orSep),
                 FilterSerialize.Sent(s.sets), [] + CursorSent(s.cursor, s.filterAnd, s.filterOr));
    Assoc(SetsPieces(Head(s), s.sets), [Text(ListClause(" FROM ", s.from))],
          CursorPieces(from, s.cursor, s.filterAnd, s.filterOr, andSep, orSep));
  }
}
