/**
 * The single-list predicate serializer (`Protocols/DBFilterSerialize.swift`).
 * The filters of a `DBPredicateForSelectDelete` list already carry their
 * conjunctions and brackets, so they are appended one after the other to an
 * incoming fragment, each followed by its placeholders: `$j` for one bind
 * (after text ending " IN ", that suffix becomes " = "), `$a AND $b` for two
 * binds after "BETWEEN " without a cast, and a parenthesised list otherwise;
 * with a cast type every placeholder is `$j::type`.  A filter ending " IN "
 * with no binds is skipped.
 *
 * `Serialized` folds `Step` over the list; `SerializeFilters` is the loop,
 * proved to compute it.  `TraceAligned` shows that the placeholders written
 * are `$m+1, $m+2, ...`, one per bind appended, and `SerializedExtends` that,
 * for `Local` filters (a filter with exactly one bind has at least four
 * characters of text), the output is the input followed by the filters'
 * pieces.
 */
module PredicateSerialize {
  import opened Fragments

  /** A filter whose text ends in " IN " and that has no binds is skipped. */
  predicate Skipped(f: Raw) {
    EndsWith(f.sql, " IN ") && |f.binds| == 0
  }

  /** `dropLast(3) + "= "` on text ending in " IN ": that suffix becomes " = ". */
  function InToEq(s: string): (r: string)
    ensures EndsWith(s, " IN ") ==> r == s[..|s| - 4] + " = "
    ensures !EndsWith(s, " IN ") ==> r == s
  {
    if EndsWith(s, " IN ") then
      assert s[..|s| - 3] == s[..|s| - 4] + [s[|s| - 4]];
      s[..|s| - 3] + "= "
    else s
  }

  /** Two binds, no cast, after text ending "BETWEEN ": rendered as `$a AND $b`. */
  predicate IsBetween(s: string, f: Raw) {
    f.cast == None && |f.binds| == 2 && EndsWith(s, "BETWEEN ")
  }

  /**
   * The text before a filter's placeholders, where `s` is the text so far
   * with the filter's own text appended: " IN " rewritten before a single
   * placeholder, an opening parenthesis before a list.
   */
  function Head(s: string, f: Raw): string {
    if |f.binds| == 1 then InToEq(s)
    else if |f.binds| >= 2 && !IsBetween(s, f) then s + "("
    else s
  }

  /** A filter's placeholders, numbered on from `$j`, each carrying the filter's cast. */
  function StepPieces(s: string, f: Raw, j: nat): seq<Piece> {
    var n := |f.binds|;
    if n == 0 then []
    else if n == 1 then [Param(j + 1, f.cast)]
    else if IsBetween(s, f) then [Param(j + 1, None), Text(" AND "), Param(j + 2, None)]
    else ParamList(j + 1, n, f.cast) + [Text(")")]
  }

  function StepText(s: string, f: Raw, j: nat): string {
    Flatten(StepPieces(s, f, j))
  }

  /** One pass of the loop: the filter's text, its placeholders and its binds appended. */
  function Step(q: Raw, f: Raw): Raw {
    if Skipped(f) then q
    else
      var s := q.sql + f.sql;
      Raw(Head(s, f) + StepText(s, f, |q.binds|), q.binds + f.binds, q.cast)
  }

  /** `serializeFilter(source:)`: every filter of `fs`, in order, after `raw`. */
  function Serialized(raw: Raw, fs: seq<Raw>): Raw {
    if fs == [] then raw else Step(Serialized(raw, fs[..|fs| - 1]), fs[|fs| - 1])
  }

  // ---- The serializer ----

  /**
   * One filter of the loop, for a filter that is not skipped:
   * its text, then its placeholders as the cast and no-cast branches write
   * them, with the counter advanced by one per bind.
   */
  method WriteFilter(query: Raw, j: nat, filter: Raw) returns (query': Raw, j': nat)
    requires j == |query.binds| && !Skipped(filter)
    ensures query' == Step(query, filter) && j' == |query'.binds|
  {
    var s := query.sql + filter.sql;
    var sql := s;
    var binds := query.binds;
    j' := j;
    if |filter.binds| > 0 {
      binds := binds + filter.binds;
      if filter.cast.Some? {
        sql, j' := WriteCast(s, j, filter);
      } else {
        sql, j' := WritePlain(s, j, filter);
      }
    } else {
      AppendEmpty(s);
      AppendEmpty(binds);
    }
    query' := Raw(sql, binds, query.cast);
  }

  /** With a cast type, one placeholder or a parenthesised list, each `$k::type`. */
  method WriteCast(s: string, j: nat, filter: Raw) returns (sql: string, j': nat)
    requires |filter.binds| > 0 && filter.cast.Some?
    ensures sql == Head(s, filter) + StepText(s, filter, j) && j' == j + |filter.binds|
  {
    var n := |filter.binds|;
    sql := s;
    if n == 1 {
      j' := j + 1;
      if EndsWith(sql, " IN ") {
        sql := sql[..|sql| - 3] + "= ";
      }
      SingleText(j, filter.cast);
      sql := sql + PlaceholderText(j', filter.cast);
    } else {
      sql := sql + "(";
      var params;
      params, j' := WritePlaceholders(j, n, filter.cast);
      ListText(j, n, filter.cast);
      sql := sql + (params + ")");
      Assoc(s, "(", params + ")");
    }
  }

  /** Without a cast, one placeholder, `$a AND $b` after "BETWEEN ", or a parenthesised list. */
  method WritePlain(s: string, j: nat, filter: Raw) returns (sql: string, j': nat)
    requires |filter.binds| > 0 && filter.cast.None?
    ensures sql == Head(s, filter) + StepText(s, filter, j) && j' == j + |filter.binds|
  {
    var n := |filter.binds|;
    sql := s;
    if n == 1 {
      j' := j + 1;
      if EndsWith(sql, " IN ") {
        sql := sql[..|sql| - 3] + "= ";
      }
      SingleText(j, None);
      sql := sql + PlaceholderText(j', None);
    } else if n == 2 && EndsWith(sql, "BETWEEN ") {
      j' := j + 2;
      BetweenText(j);
      sql := sql + (PlaceholderText(j' - 1, None) + " AND " + PlaceholderText(j', None));
    } else {
      sql := sql + "(";
      var params;
      params, j' := WritePlaceholders(j, n, None);
      ListText(j, n, None);
      sql := sql + (params + ")");
      Assoc(s, "(", params + ")");
    }
  }

  lemma SingleText(j: nat, cast: Option<string>)
    ensures Flatten([Param(j + 1, cast)]) == PlaceholderText(j + 1, cast)
  {
    PiecePair(Param(j + 1, cast), Text(""));
  }

  lemma BetweenText(j: nat)
    ensures Flatten([Param(j + 1, None), Text(" AND "), Param(j + 2, None)])
         == PlaceholderText(j + 1, None) + " AND " + PlaceholderText(j + 2, None)
  {
    var a, b, c := Param(j + 1, None), Text(" AND "), Param(j + 2, None);
    assert [a, b, c] == [a] + [b, c];
    FlattenAppend([a], [b, c]);
    PiecePair(a, b);
    PiecePair(b, c);
    Assoc(PlaceholderText(j + 1, None), " AND ", PlaceholderText(j + 2, None));
  }

  lemma ListText(j: nat, n: nat, cast: Option<string>)
    requires n >= 1
    ensures Flatten(ParamList(j + 1, n, cast) + [Text(")")]) == Flatten(ParamList(j + 1, n, cast)) + ")"
  {
    FlattenAppend(ParamList(j + 1, n, cast), [Text(")")]);
    PiecePair(Text(")"), Text(""));
  }

  /**
   * `serializeFilter(source:)`: the loop over the filters, skipping the
   * empty IN filters, with `j` always the number of binds written so far.
   */
  method SerializeFilters(raw: Raw, filters: seq<Raw>) returns (query: Raw)
    ensures query == Serialized(raw, filters)
  {
    query := raw;
    var j := |query.binds|;
    for i := 0 to |filters|
      invariant query == Serialized(raw, filters[..i])
      invariant j == |query.binds|
    {
      assert filters[..i + 1][..i] == filters[..i];
      var filter := filters[i];
      if Skipped(filter) {
        continue;
      }
      query, j := WriteFilter(query, j, filter);
    }
    assert filters[..|filters|] == filters;
  }

  // ---- Binds, skipping and alignment ----

  /** The output's binds are the input's followed by every filter's binds, in order; the cast is kept. */
  lemma {:induction false} SerializedBinds(raw: Raw, fs: seq<Raw>)
    ensures Serialized(raw, fs).binds == raw.binds + AllBinds(fs)
    ensures Serialized(raw, fs).cast == raw.cast
  {
    if fs == [] {
      AppendEmpty(raw.binds);
    } else {
      var init := fs[..|fs| - 1];
      SerializedBinds(raw, init);
      Assoc(raw.binds, AllBinds(init), fs[|fs| - 1].binds);
    }
  }

  /** The filters that are not skipped, in order. */
  function Kept(fs: seq<Raw>): (r: seq<Raw>)
    ensures forall i :: 0 <= i < |r| ==> !Skipped(r[i])
  {
    if fs == [] then []
    else Kept(fs[..|fs| - 1]) + (if Skipped(fs[|fs| - 1]) then [] else [fs[|fs| - 1]])
  }

  /** Skipped filters contribute nothing: the result is that of the kept filters alone. */
  lemma {:induction false} SkippedIgnored(raw: Raw, fs: seq<Raw>)
    ensures Serialized(raw, fs) == Serialized(raw, Kept(fs))
  {
    if fs != [] {
      var init, f := fs[..|fs| - 1], fs[|fs| - 1];
      SkippedIgnored(raw, init);
      if Skipped(f) {
        AppendEmpty(Kept(init));
      } else {
        var k := Kept(init) + [f];
        assert k[..|k| - 1] == Kept(init);
      }
    }
  }

  /** The placeholder numbers one filter writes after `q`. */
  function StepNumbers(q: Raw, f: Raw): seq<nat> {
    if Skipped(f) then [] else Placeholders(StepPieces(q.sql + f.sql, f, |q.binds|))
  }

  /** The placeholder numbers the whole loop writes, in order. */
  function Trace(raw: Raw, fs: seq<Raw>): seq<nat> {
    if fs == [] then []
    else Trace(raw, fs[..|fs| - 1]) + StepNumbers(Serialized(raw, fs[..|fs| - 1]), fs[|fs| - 1])
  }

  /** A filter's placeholders are `$j+1, ..., $j+n` for its `n` binds. */
  lemma StepAligned(s: string, f: Raw, j: nat)
    ensures Placeholders(StepPieces(s, f, j)) == Range(j + 1, |f.binds|)
  {
    var n := |f.binds|;
    if n == 1 {
      PiecePair(Param(j + 1, f.cast), Text(""));
    } else if IsBetween(s, f) {
      var a, b, c := Param(j + 1, None), Text(" AND "), Param(j + 2, None);
      assert [a, b, c] == [a] + [b, c];
      PlaceholdersAppend([a], [b, c]);
      PiecePair(a, b);
      PiecePair(b, c);
    } else if n >= 2 {
      ParamListPlaceholders(j + 1, n, f.cast);
      PlaceholdersAppend(ParamList(j + 1, n, f.cast), [Text(")")]);
      PiecePair(Text(")"), Text(""));
      AppendEmpty(Range(j + 1, n));
    }
  }

  /**
   * Placeholder/bind alignment: the counter starts at the incoming bind
   * count and the placeholders written are `$m+1, $m+2, ...`, exactly one
   * per bind appended, in order.
   */
  lemma {:induction false} TraceAligned(raw: Raw, fs: seq<Raw>)
    ensures Trace(raw, fs) == Range(|raw.binds| + 1, |AllBinds(fs)|)
  {
    if fs != [] {
      var init, f := fs[..|fs| - 1], fs[|fs| - 1];
      var q := Serialized(raw, init);
      assert Trace(raw, fs) == Trace(raw, init) + StepNumbers(q, f);
      assert AllBinds(fs) == AllBinds(init) + f.binds;
      TraceAligned(raw, init);
      SerializedBinds(raw, init);
      StepNumbersAligned(q, f);
      RangeChain(Trace(raw, fs), Trace(raw, init), StepNumbers(q, f),
                 |raw.binds| + 1, |AllBinds(init)|, |f.binds|, |q.binds| + 1, |AllBinds(fs)|);
    }
  }

  /** Consecutive numbers followed by the numbers after them are consecutive numbers. */
  lemma RangeChain(t: seq<nat>, prev: seq<nat>, step: seq<nat>, from: nat, a: nat, b: nat, mid: nat, total: nat)
    requires t == prev + step && prev == Range(from, a) && step == Range(mid, b)
    requires mid == from + a && total == a + b
    ensures t == Range(from, total)
  {
    RangeSplit(from, a, b);
  }

  /** The numbers one filter writes are `$m+1, ..., $m+n` for the `m` binds before it and its `n` binds. */
  lemma StepNumbersAligned(q: Raw, f: Raw)
    ensures StepNumbers(q, f) == Range(|q.binds| + 1, |f.binds|)
  {
    StepAligned(q.sql + f.sql, f, |q.binds|);
  }

  // ---- The output as the input followed by pieces ----

  /** The " IN " rewrite of a single-bind filter stays within the filter's own text. */
  predicate Local(f: Raw) {
    |f.binds| == 1 ==> |f.sql| >= 4
  }

  /** The text a filter writes before its placeholders, for a `Local` filter. */
  function Lead(s: string, f: Raw): string {
    if |f.binds| == 1 then InToEq(f.sql)
    else if |f.binds| >= 2 && !IsBetween(s, f) then f.sql + "("
    else f.sql
  }

  /** For a `Local` filter the text so far is kept and the filter's lead follows it. */
  lemma HeadLead(q: string, f: Raw)
    requires Local(f)
    ensures Head(q + f.sql, f) == q + Lead(q + f.sql, f)
  {
    var s := q + f.sql;
    if |f.binds| == 1 {
      assert s[|s| - 4..] == f.sql[|f.sql| - 4..];
      if EndsWith(f.sql, " IN ") {
        assert s[..|s| - 4] == q + f.sql[..|f.sql| - 4];
        Assoc(q, f.sql[..|f.sql| - 4], " = ");
      }
    } else if |f.binds| >= 2 && !IsBetween(s, f) {
      Assoc(q, f.sql, "(");
    }
  }

  /** What one filter appends after `q`: its lead, then its placeholders. */
  function StepAll(q: Raw, f: Raw): seq<Piece> {
    if Skipped(f) then []
    else [Text(Lead(q.sql + f.sql, f))] + StepPieces(q.sql + f.sql, f, |q.binds|)
  }

  /** One `Local` filter extends the fragment by its pieces and its binds. */
  lemma StepExtends(q: Raw, f: Raw)
    requires Local(f)
    ensures Extends(q, Step(q, f), StepAll(q, f), f.binds)
  {
    if Skipped(f) {
      ExtendsNothing(q);
    } else {
      var s := q.sql + f.sql;
      var lead, ps := Lead(s, f), StepPieces(s, f, |q.binds|);
      HeadLead(q.sql, f);
      StepAligned(s, f, |q.binds|);
      FlattenAppend([Text(lead)], ps);
      PlaceholdersAppend([Text(lead)], ps);
      PiecePair(Text(lead), Text(lead));
      Assoc(q.sql, lead, Flatten(ps));
    }
  }

  /** Everything the loop appends after `raw`, as pieces. */
  function AllPieces(raw: Raw, fs: seq<Raw>): seq<Piece> {
    if fs == [] then []
    else AllPieces(raw, fs[..|fs| - 1]) + StepAll(Serialized(raw, fs[..|fs| - 1]), fs[|fs| - 1])
  }

  /**
   * For `Local` filters (a filter with exactly one bind has at least four
   * characters of text), the output is the input followed by each filter's text
   * and placeholders, and by each filter's binds, with the placeholders
   * numbered on from the incoming binds.
   */
  lemma {:induction false} SerializedExtends(raw: Raw, fs: seq<Raw>)
    requires forall i :: 0 <= i < |fs| ==> Local(fs[i])
    ensures Extends(raw, Serialized(raw, fs), AllPieces(raw, fs), AllBinds(fs))
  {
    if fs == [] {
      ExtendsNothing(raw);
    } else {
      var init, f := fs[..|fs| - 1], fs[|fs| - 1];
      var q := Serialized(raw, init);
      SerializedExtends(raw, init);
      StepExtends(q, f);
      ExtendsChain(raw, q, Step(q, f), AllPieces(raw, init), StepAll(q, f), AllBinds(init), f.binds);
    }
  }

  // ---- What each filter looks like ----

  /** Every placeholder among `ps` carries `cast`. */
  predicate Casts(ps: seq<Piece>, cast: Option<string>) {
    forall i :: 0 <= i < |ps| && ps[i].Param? ==> ps[i].cast == cast
  }

  lemma CastsAppend(a: seq<Piece>, b: seq<Piece>, cast: Option<string>)
    requires Casts(a, cast) && Casts(b, cast)
    ensures Casts(a + b, cast)
  {
    assert forall i :: 0 <= i < |b| ==> (a + b)[|a| + i] == b[i];
  }

  lemma {:induction false} CommaParamsCast(from: nat, k: nat, cast: Option<string>)
    ensures Casts(CommaParams(from, k, cast), cast)
    decreases k
  {
    if k > 0 {
      CommaParamsCast(from, k - 1, cast);
      CastsAppend(CommaParams(from, k - 1, cast), [Param(from + k - 1, cast), Text(", ")], cast);
    }
  }

  /** With a cast type set, every placeholder of the filter is written `$j::type`. */
  lemma StepCast(s: string, f: Raw, j: nat)
    ensures Casts(StepPieces(s, f, j), f.cast)
  {
    var n := |f.binds|;
    if n >= 2 && !IsBetween(s, f) {
      CommaParamsCast(j + 1, n - 1, f.cast);
      CastsAppend(CommaParams(j + 1, n - 1, f.cast), [Param(j + n, f.cast)], f.cast);
      CastsAppend(ParamList(j + 1, n, f.cast), [Text(")")], f.cast);
    }
  }

  /**
   * A filter without binds is skipped when its text ends in " IN " and
   * otherwise contributes its text alone.
   */
  lemma BindlessFilter(q: Raw, f: Raw)
    requires |f.binds| == 0
    ensures Step(q, f) == if EndsWith(f.sql, " IN ") then q else Raw(q.sql + f.sql, q.binds, q.cast)
  {
    AppendEmpty(q.sql + f.sql);
    AppendEmpty(q.binds);
  }

  /**
   * A single bind is one placeholder `$j+1` (with `::type` when cast) after
   * the text, whose " IN " suffix, if any, becomes " = ".
   */
  lemma SingleBindFilter(q: Raw, f: Raw)
    requires |f.binds| == 1
    ensures Step(q, f).sql == InToEq(q.sql + f.sql) + PlaceholderText(|q.binds| + 1, f.cast)
    ensures Step(q, f).binds == q.binds + f.binds
  {
    SingleText(|q.binds|, f.cast);
  }

  /** Two binds after "BETWEEN ", without a cast: `$a AND $b`, not parenthesised. */
  lemma BetweenFilter(q: Raw, f: Raw)
    requires IsBetween(q.sql + f.sql, f)
    ensures Step(q, f).sql
         == q.sql + f.sql + (PlaceholderText(|q.binds| + 1, None) + " AND " + PlaceholderText(|q.binds| + 2, None))
  {
    BetweenText(|q.binds|);
  }

  /**
   * Any other filter with several binds: a parenthesised comma list of the
   * consecutive placeholders `$j+1, ..., $j+n`.
   */
  lemma ListFilter(q: Raw, f: Raw)
    requires |f.binds| >= 2 && !IsBetween(q.sql + f.sql, f)
    ensures Step(q, f).sql == q.sql + f.sql + "(" + (Flatten(ParamList(|q.binds| + 1, |f.binds|, f.cast)) + ")")
    ensures Placeholders(ParamList(|q.binds| + 1, |f.binds|, f.cast)) == Range(|q.binds| + 1, |f.binds|)
  {
    ListText(|q.binds|, |f.binds|, f.cast);
    ParamListPlaceholders(|q.binds| + 1, |f.binds|, f.cast);
  }

  // ---- What the rewrite reaches ----

  /**
   * A step never shortens the text, and the " IN " rewrite reaches back at
   * most four characters: the incoming text but its last four characters
   * is kept as it was.
   */
  lemma StepKeeps(q: Raw, f: Raw)
    ensures |Step(q, f).sql| >= |q.sql|
    ensures |q.sql| >= 4 ==> q.sql[..|q.sql| - 4] <= Step(q, f).sql
  {
    if !Skipped(f) {
      var s := q.sql + f.sql;
      var h := Head(s, f);
      var out := Step(q, f).sql;
      assert out == h + StepText(s, f, |q.binds|);
      if |f.binds| == 1 {
        SingleText(|q.binds|, f.cast);
        assert |StepText(s, f, |q.binds|)| >= 2;
        if EndsWith(s, " IN ") {
          assert s[..|s| - 4] <= h;
        } else {
          assert s <= h;
        }
      } else {
        assert s <= h;
      }
      if |q.sql| >= 4 {
        assert q.sql[..|q.sql| - 4] <= s[..|s| - 4];
      }
    }
  }

  /**
   * Over the whole loop, the incoming text but its last four characters is
   * kept: the rewrite of a filter shorter than " IN " can reach into the
   * incoming text, but no further back than that.
   */
  lemma {:induction false} SerializedKeeps(raw: Raw, fs: seq<Raw>)
    ensures |Serialized(raw, fs).sql| >= |raw.sql|
    ensures |raw.sql| >= 4 ==> raw.sql[..|raw.sql| - 4] <= Serialized(raw, fs).sql
  {
    if fs != [] {
      var mid := Serialized(raw, fs[..|fs| - 1]);
      SerializedKeeps(raw, fs[..|fs| - 1]);
      StepKeeps(mid, fs[|fs| - 1]);
      if |raw.sql| >= 4 {
        assert raw.sql[..|raw.sql| - 4] <= mid.sql[..|mid.sql| - 4];
      }
    }
  }
}
