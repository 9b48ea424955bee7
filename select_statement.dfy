/**
 * The SELECT statement a select builder renders (`DBSelectBuilder.swift`,
 * `serialize()`): the WITH prefix, the projection, FROM, the joins in the
 * order they were declared, WHERE with the two filter lists, then GROUP BY,
 * HAVING, ORDER BY, LIMIT, OFFSET, the row lock and ";".  Each clause is
 * left out when its list is empty or its value is absent.
 *
 * `SelectState` is a snapshot of the builder's fields; `SelectSql` is the
 * statement for it, and the methods below write it step by step as
 * `serialize()` does.  `andSep` and `orSep` are the raw values of
 * `DBCondition`, which is not part of this model.
 */
module SelectStatement {
  import opened Fragments
  import opened Clauses
  import Joins
  import FilterSerialize
  import PredicateSerialize

  /** `DBAggregate`. */
  datatype Aggregate = Avg | Count | Max | Min | Sum

  /** The raw values of `DBAggregate`: the SQL function names. */
  function AggregateName(a: Aggregate): string {
    match a
    case Avg => "avg"
    case Count => "count"
    case Max => "max"
    case Min => "min"
    case Sum => "sum"
  }

  /** `SelectIsolation`. */
  datatype Isolation = Update | NoKeyUpdate | Share | KeyShare

  /** The raw values of `SelectIsolation`: the lock strength after "FOR ". */
  function IsolationText(i: Isolation): string {
    match i
    case Update => "UPDATE"
    case NoKeyUpdate => "NO KEY UPDATE"
    case Share => "SHARE"
    case KeyShare => "KEY SHARE"
  }

  /** The fields of a select builder that `serialize()` reads. */
  datatype SelectState = SelectState(
    with: seq<Raw>, columns: seq<Raw>, from: seq<string>,
    filterAnd: seq<Raw>, filterOr: seq<Raw>, joins: seq<Joins.Join>,
    group: seq<string>, having: seq<string>, order: seq<string>,
    limit: Option<int>, offset: Option<int>, distinct: Option<seq<string>>,
    aggregate: Option<Aggregate>, isolation: Option<Isolation>, isWait: bool)

  // ---- The statement ----

  /** " DISTINCT" for an empty list, " DISTINCT ON (" the list "))" otherwise, nothing when unset. */
  function DistinctText(distinct: Option<seq<string>>): string {
    if distinct.None? then ""
    else if |distinct.value| == 0 then " DISTINCT"
    else " DISTINCT ON (" + Join(distinct.value, ", ") + "))"
  }

  /** The column list: `"alias".*` when there are no columns. */
  function ColumnsText(alias: string, columns: seq<Raw>): string {
    if |columns| == 0 then DQ(alias) + ".*" else Join(Sqls(columns), ", ")
  }

  /** The `switch aggregate` of `serialize()`. */
  function AggregateCall(a: Aggregate, cols: string): string {
    match a
    case Avg => " avg(" + cols + ")"
    case Count => " count(" + cols + ")"
    case Max => " max(" + cols + ")"
    case Min => " min(" + cols + ")"
    case Sum => " sum(" + cols + ")"
  }

  function ProjectionText(aggregate: Option<Aggregate>, cols: string): string {
    if aggregate.Some? then AggregateCall(aggregate.value, cols) else " " + cols
  }

  /** The text up to and including FROM. */
  function HeadText(alias: string, s: SelectState): string {
    WithText(s.with) + "SELECT" + DistinctText(s.distinct)
    + ProjectionText(s.aggregate, ColumnsText(alias, s.columns)) + (" FROM " + Join(s.from, ", "))
  }

  /** The statement up to FROM, with the WITH binds first and the column binds after them. */
  function Head(alias: string, s: SelectState): Raw {
    Raw(HeadText(alias, s), AllBinds(s.with) + AllBinds(s.columns), None)
  }

  /** `for join in joins { query = join.serialize(source: query) }`. */
  function JoinsSql(raw: Raw, js: seq<Joins.Join>): Raw {
    if js == [] then raw else Joins.JoinSql(JoinsSql(raw, js[..|js| - 1]), js[|js| - 1])
  }

  function NumberClause(keyword: string, n: Option<int>): string {
    if n.Some? then keyword + IntToString(n.value) else ""
  }

  /** "FOR " and the lock strength, written without a leading space; " NOWAIT" only after a lock. */
  function LockText(isolation: Option<Isolation>, isWait: bool): string {
    if isolation.Some? then "FOR " + IsolationText(isolation.value) + (if isWait then " NOWAIT" else "") else ""
  }

  /** The clauses after WHERE, in their fixed order, and the closing ";". */
  function Finish(sql: string, s: SelectState): string {
    sql + ListClause(" GROUP BY ", s.group) + ListClause(" HAVING ", s.having)
    + ListClause(" ORDER BY ", s.order) + NumberClause(" LIMIT ", s.limit)
    + NumberClause(" OFFSET ", s.offset) + LockText(s.isolation, s.isWait) + ";"
  }

  /** `serialize()`. */
  function SelectSql(alias: string, andSep: string, orSep: string, s: SelectState): Raw {
    var body := WhereSql(JoinsSql(Head(alias, s), s.joins), s.filterAnd, s.filterOr, andSep, orSep);
    Raw(Finish(body.sql, s), body.binds, None)
  }

  // ---- Writing it ----

  /** WITH, SELECT, DISTINCT, the projection and FROM. */
  method WriteHead(alias: string, s: SelectState) returns (query: Raw)
    ensures query == Head(alias, s)
  {
    var sql := "";
    var binds: seq<Bind> := [];
    if |s.with| > 0 {
      sql := "WITH ";
      sql := sql + (Join(Sqls(s.with), ", ") + " ");
      binds := AllBinds(s.with);
    }
    sql := sql + "SELECT";
    if s.distinct.Some? {
      if |s.distinct.value| == 0 {
        sql := sql + " DISTINCT";
      } else {
        sql := sql + (" DISTINCT ON (" + Join(s.distinct.value, ", ") + "))");
      }
    } else {
      AppendEmpty(sql);
    }
    var cols := "";
    if |s.columns| == 0 {
      cols := DQ(alias) + ".*";
      AppendEmpty(binds);
    } else {
      cols := Join(Sqls(s.columns), ", ");
      binds := binds + AllBinds(s.columns);
    }
    if s.aggregate.Some? {
      match s.aggregate.value
      case Avg => sql := sql + (" avg(" + cols + ")");
      case Count => sql := sql + (" count(" + cols + ")");
      case Max => sql := sql + (" max(" + cols + ")");
      case Min => sql := sql + (" min(" + cols + ")");
      case Sum => sql := sql + (" sum(" + cols + ")");
    } else {
      sql := sql + (" " + cols);
    }
    sql := sql + (" FROM " + Join(s.from, ", "));
    query := Raw(sql, binds, None);
  }

  /** Every join, in order. */
  method WriteJoins(raw: Raw, js: seq<Joins.Join>) returns (query: Raw)
    ensures query == JoinsSql(raw, js)
  {
    query := raw;
    for i := 0 to |js|
      invariant query == JoinsSql(raw, js[..i])
    {
      assert js[..i + 1][..i] == js[..i];
      query := Joins.SerializeJoin(query, js[i]);
    }
    assert js[..|js|] == js;
  }

  /** Everything after WHERE: GROUP BY, HAVING, ORDER BY, LIMIT, OFFSET, the row lock, NOWAIT and ";". */
  method WriteTail(sql0: string, s: SelectState) returns (sql: string)
    ensures sql == Finish(sql0, s)
  {
    sql := sql0;
    if |s.group| > 0 {
      sql := sql + (" GROUP BY " + Join(s.group, ", "));
    } else {
      AppendEmpty(sql);
    }
    if |s.having| > 0 {
      sql := sql + (" HAVING " + Join(s.having, ", "));
    } else {
      AppendEmpty(sql);
    }
    if |s.order| > 0 {
      sql := sql + (" ORDER BY " + Join(s.order, ", "));
    } else {
      AppendEmpty(sql);
    }
    if s.limit.Some? {
      sql := sql + (" LIMIT " + IntToString(s.limit.value));
    } else {
      AppendEmpty(sql);
    }
    if s.offset.Some? {
      sql := sql + (" OFFSET " + IntToString(s.offset.value));
    } else {
      AppendEmpty(sql);
    }
    if s.isolation.Some? {
      var before, lock := sql, "FOR " + IsolationText(s.isolation.value);
      sql := sql + lock;
      if s.isWait {
        sql := sql + " NOWAIT";
        Assoc(before, lock, " NOWAIT");
      } else {
        AppendEmpty(lock);
      }
    } else {
      AppendEmpty(sql);
    }
    sql := sql + ";";
  }

  // ---- What the statement is made of ----

  /** An aggregate wraps the column text as `name(cols)`, after one space. */
  lemma AggregateWraps(a: Aggregate, cols: string)
    ensures AggregateCall(a, cols) == " " + AggregateName(a) + "(" + cols + ")"
  {
    var open := " " + AggregateName(a) + "(";
    match a
    case Avg => assert open == " avg(";
    case Count => assert open == " count(";
    case Max => assert open == " max(";
    case Min => assert open == " min(";
    case Sum => assert open == " sum(";
  }

  /** A DISTINCT list is rendered inside " DISTINCT ON (" and two closing parentheses. */
  lemma DistinctForms(distinct: Option<seq<string>>)
    ensures distinct == Some([]) ==> DistinctText(distinct) == " DISTINCT"
    ensures distinct.Some? && |distinct.value| > 0 ==>
      " DISTINCT ON (" <= DistinctText(distinct) && EndsWith(DistinctText(distinct), "))")
  {
    if distinct.Some? && |distinct.value| > 0 {
      var t := DistinctText(distinct);
      var inner := " DISTINCT ON (" + Join(distinct.value, ", ");
      assert t == inner + "))";
      assert t[|t| - 2..] == "))";
    }
  }

  /** The binds the joins send, join by join, in declaration order. */
  function JoinsBinds(js: seq<Joins.Join>): seq<Bind> {
    if js == [] then [] else JoinsBinds(js[..|js| - 1]) + AllBinds(js[|js| - 1].filters)
  }

  /**
   * The joins keep the text before them at the head of the statement and
   * append the binds of their filters, in declaration order.
   */
  lemma {:induction false} JoinsKeep(raw: Raw, js: seq<Joins.Join>)
    ensures raw.sql <= JoinsSql(raw, js).sql
    ensures JoinsSql(raw, js).binds == raw.binds + JoinsBinds(js)
    ensures js != [] ==> JoinsSql(raw, js).cast == None
  {
    if js == [] {
      AppendEmpty(raw.binds);
    } else {
      var init, j := js[..|js| - 1], js[|js| - 1];
      var mid := JoinsSql(raw, init);
      JoinsKeep(raw, init);
      Joins.JoinShape(mid, j);
      assert mid.sql <= Joins.Keyword(mid, j);
      Assoc(raw.binds, JoinsBinds(init), AllBinds(j.filters));
    }
  }

  /** The statement starts with the head (WITH, SELECT ... FROM ...). */
  lemma SelectKeepsHead(alias: string, andSep: string, orSep: string, s: SelectState)
    ensures HeadText(alias, s) <= SelectSql(alias, andSep, orSep, s).sql
  {
    var joined := JoinsSql(Head(alias, s), s.joins);
    JoinsKeep(Head(alias, s), s.joins);
    WhereKeeps(joined, s.filterAnd, s.filterOr, andSep, orSep);
    var body := WhereSql(joined, s.filterAnd, s.filterOr, andSep, orSep);
    assert body.sql <= Finish(body.sql, s);
  }

  /** The head starts with "WITH " exactly when there are WITH fragments; otherwise with "SELECT". */
  lemma HeadStarts(alias: string, s: SelectState)
    ensures ("WITH " <= HeadText(alias, s)) <==> |s.with| > 0
    ensures |s.with| == 0 ==> "SELECT" <= HeadText(alias, s)
  {
    var h := HeadText(alias, s);
    if |s.with| > 0 {
      assert "WITH " <= WithText(s.with);
      assert WithText(s.with) <= h;
    } else {
      assert "SELECT" <= h;
      assert h[0] == 'S' && "WITH "[0] == 'W';
    }
  }

  /** The statement starts with "WITH " exactly when there are WITH fragments; otherwise with "SELECT". */
  lemma SelectWith(alias: string, andSep: string, orSep: string, s: SelectState)
    ensures ("WITH " <= SelectSql(alias, andSep, orSep, s).sql) <==> |s.with| > 0
    ensures |s.with| == 0 ==> "SELECT" <= SelectSql(alias, andSep, orSep, s).sql
  {
    var h := HeadText(alias, s);
    var r := SelectSql(alias, andSep, orSep, s).sql;
    SelectKeepsHead(alias, andSep, orSep, s);
    HeadStarts(alias, s);
    assert |h| >= 6;
    PrefixThrough("WITH ", h, r);
    PrefixThrough("SELECT", h, r);
  }

  /** The statement always ends with ";". */
  lemma SelectEnds(alias: string, andSep: string, orSep: string, s: SelectState)
    ensures EndsWith(SelectSql(alias, andSep, orSep, s).sql, ";")
  {
    var r := SelectSql(alias, andSep, orSep, s).sql;
    assert r[|r| - 1..] == ";";
  }

  /**
   * The binds, in order: those of the WITH fragments, of the columns, of
   * each join's filters, then those the AND list and the OR list send.
   */
  lemma SelectBinds(alias: string, andSep: string, orSep: string, s: SelectState)
    ensures SelectSql(alias, andSep, orSep, s).binds
         == AllBinds(s.with) + AllBinds(s.columns) + JoinsBinds(s.joins)
            + (FilterSerialize.Sent(s.filterAnd) + FilterSerialize.Sent(s.filterOr))
  {
    var joined := JoinsSql(Head(alias, s), s.joins);
    JoinsKeep(Head(alias, s), s.joins);
    WhereKeeps(joined, s.filterAnd, s.filterOr, andSep, orSep);
  }

  /**
   * " WHERE" follows the joins exactly when either filter list is
   * non-empty; otherwise the clauses after WHERE follow the joins directly.
   */
  lemma SelectWhere(alias: string, andSep: string, orSep: string, s: SelectState)
    ensures |s.filterAnd| + |s.filterOr| > 0 ==>
      JoinsSql(Head(alias, s), s.joins).sql + " WHERE" <= SelectSql(alias, andSep, orSep, s).sql
    ensures |s.filterAnd| + |s.filterOr| == 0 ==>
      SelectSql(alias, andSep, orSep, s).sql == Finish(JoinsSql(Head(alias, s), s.joins).sql, s)
  {
    var joined := JoinsSql(Head(alias, s), s.joins);
    WhereKeeps(joined, s.filterAnd, s.filterOr, andSep, orSep);
    var body := WhereSql(joined, s.filterAnd, s.filterOr, andSep, orSep);
    assert body.sql <= Finish(body.sql, s);
  }

  // ---- Alignment over the whole statement ----

  /** The pieces the joins append, join by join. */
  function JoinsPieces(raw: Raw, js: seq<Joins.Join>): seq<Piece> {
    if js == [] then []
    else JoinsPieces(raw, js[..|js| - 1]) + Joins.JoinPieces(JoinsSql(raw, js[..|js| - 1]), js[|js| - 1])
  }

  /** Every join's filters are `Local`. */
  predicate LocalJoins(js: seq<Joins.Join>) {
    forall i, k :: 0 <= i < |js| && 0 <= k < |js[i].filters| ==> PredicateSerialize.Local(js[i].filters[k])
  }

  /** For `Local` join filters the joins are one aligned extension of the text before them. */
  lemma {:induction false} JoinsAligned(raw: Raw, js: seq<Joins.Join>)
    requires raw.cast == None && LocalJoins(js)
    ensures Extends(raw, JoinsSql(raw, js), JoinsPieces(raw, js), JoinsBinds(js))
  {
    if js == [] {
      ExtendsNothing(raw);
    } else {
      var init, j := js[..|js| - 1], js[|js| - 1];
      var mid := JoinsSql(raw, init);
      assert LocalJoins(init) by {
        forall i, k | 0 <= i < |init| && 0 <= k < |init[i].filters|
          ensures PredicateSerialize.Local(init[i].filters[k])
        {
          assert init[i] == js[i];
        }
      }
      JoinsAligned(raw, init);
      assert forall k :: 0 <= k < |j.filters| ==> PredicateSerialize.Local(j.filters[k]) by {
        forall k | 0 <= k < |j.filters| ensures PredicateSerialize.Local(j.filters[k]) {
          assert j == js[|js| - 1];
        }
      }
      Joins.JoinAligned(mid, j);
      ExtendsChain(raw, mid, JoinsSql(raw, js), JoinsPieces(raw, init), Joins.JoinPieces(mid, j),
                   JoinsBinds(init), AllBinds(j.filters));
    }
  }

  /**
   * Placeholder/bind alignment for the whole statement: after the head
   * (WITH, projection, FROM, whose fragments carry their own binds), the
   * joins and the WHERE clause write placeholders numbered on from the
   * head's binds, one per bind they append, so `$p` names the `p`-th bind
   * of the statement.  This is stated for `LocalJoins`: a join filter with
   * exactly one bind has at least four characters of text.  No builder
   * method writes a join's `filters`.
   */
  lemma SelectAligned(alias: string, andSep: string, orSep: string, s: SelectState)
    requires LocalJoins(s.joins)
    ensures Extends(Head(alias, s), WhereSql(JoinsSql(Head(alias, s), s.joins), s.filterAnd, s.filterOr, andSep, orSep),
                    JoinsPieces(Head(alias, s), s.joins)
                    + WherePieces(JoinsSql(Head(alias, s), s.joins), s.filterAnd, s.filterOr, andSep, orSep),
                    JoinsBinds(s.joins) + (FilterSerialize.Sent(s.filterAnd) + FilterSerialize.Sent(s.filterOr)))
    ensures SelectSql(alias, andSep, orSep, s).binds
         == Head(alias, s).binds + (JoinsBinds(s.joins) + (FilterSerialize.Sent(s.filterAnd) + FilterSerialize.Sent(s.filterOr)))
  {
    var head := Head(alias, s);
    var joined := JoinsSql(head, s.joins);
    JoinsAligned(head, s.joins);
    WhereAligned(joined, s.filterAnd, s.filterOr, andSep, orSep);
    ExtendsChain(head, joined, WhereSql(joined, s.filterAnd, s.filterOr, andSep, orSep),
                 JoinsPieces(head, s.joins), WherePieces(joined, s.filterAnd, s.filterOr, andSep, orSep),
                 JoinsBinds(s.joins), FilterSerialize.Sent(s.filterAnd) + FilterSerialize.Sent(s.filterOr));
  }
}
