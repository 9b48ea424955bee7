/**
 * A select's joins (`Select/DBJoin/DBJoinBuilder.swift`): `<method> JOIN
 * <table>` after the incoming fragment, then " ON " and the join's filters
 * rendered by the single-list serializer when it has any.
 *
 * The join record carries the fields `DBJoinBuilder.swift` declares
 * (`filters`) together with the two lists the select builder's `on`/`orOn`
 * mutators write (`filterAnd`, `filterOr`, in `DBSelectBuilder+Join.swift`);
 * as written, `serialize` reads only `filters`.
 */
module Joins {
  import opened Fragments
  import Items
  import PredicateSerialize
  import Conditions

  datatype Join = Join(
    alias: string, from: string, joinMethod: Items.JoinMethod,
    filters: seq<Raw>, filterAnd: seq<Raw>, filterOr: seq<Raw>)

  /** `DBJoin(alias:from:method:)`: no conditions yet. */
  function NewJoin(alias: string, from: string, joinMethod: Items.JoinMethod): Join {
    Join(alias, from, joinMethod, [], [], [])
  }

  /** The text before " ON ": the incoming text, the join keyword and the table. */
  function Keyword(raw: Raw, j: Join): string {
    raw.sql + Items.JoinMethodSql(j.joinMethod) + "JOIN " + j.from
  }

  /** `serialize(source:)`: the keyword, then " ON " and the filters when there are any; no cast. */
  function JoinSql(raw: Raw, j: Join): Raw {
    if |j.filters| == 0 then Raw(Keyword(raw, j), raw.binds, None)
    else PredicateSerialize.Serialized(Raw(Keyword(raw, j) + " ON ", raw.binds, None), j.filters)
  }

  method SerializeJoin(raw: Raw, j: Join) returns (r: Raw)
    ensures r == JoinSql(raw, j)
  {
    r := Raw(raw.sql + Items.JoinMethodSql(j.joinMethod) + "JOIN " + j.from, raw.binds, None);
    if |j.filters| > 0 {
      r := r.(sql := r.sql + " ON ");
      r := PredicateSerialize.SerializeFilters(r, j.filters);
    }
  }

  /** Without filters, the join adds its keyword and table and no bind; the binds are returned unchanged. */
  lemma JoinWithoutFilters(raw: Raw, j: Join)
    requires j.filters == []
    ensures JoinSql(raw, j).sql == raw.sql + Items.JoinMethodSql(j.joinMethod) + "JOIN " + j.from
    ensures JoinSql(raw, j).binds == raw.binds
  {
  }

  /**
   * The incoming text, the join keyword and the table are kept at the head
   * of the output, " ON " follows exactly when there are filters, and the
   * binds are the incoming ones followed by the filters', in order.
   */
  lemma JoinShape(raw: Raw, j: Join)
    ensures Keyword(raw, j) <= JoinSql(raw, j).sql
    ensures |j.filters| > 0 ==> |JoinSql(raw, j).sql| >= |Keyword(raw, j)| + 4
    ensures JoinSql(raw, j).binds == raw.binds + AllBinds(j.filters)
    ensures JoinSql(raw, j).cast == None
  {
    if |j.filters| == 0 {
      AppendEmpty(raw.binds);
    } else {
      var on := Raw(Keyword(raw, j) + " ON ", raw.binds, None);
      PredicateSerialize.SerializedKeeps(on, j.filters);
      PredicateSerialize.SerializedBinds(on, j.filters);
      assert on.sql[..|on.sql| - 4] == Keyword(raw, j);
    }
  }

  /** The ON placeholders continue the numbering after the incoming binds: `$m+1, $m+2, ...`. */
  lemma JoinNumbering(raw: Raw, j: Join)
    requires |j.filters| > 0
    ensures PredicateSerialize.Trace(Raw(Keyword(raw, j) + " ON ", raw.binds, None), j.filters)
         == Range(|raw.binds| + 1, |AllBinds(j.filters)|)
  {
    PredicateSerialize.TraceAligned(Raw(Keyword(raw, j) + " ON ", raw.binds, None), j.filters);
  }

  /** The pieces a join appends after the incoming text. */
  function JoinPieces(raw: Raw, j: Join): seq<Piece> {
    var head := Items.JoinMethodSql(j.joinMethod) + "JOIN " + j.from;
    if |j.filters| == 0 then [Text(head)]
    else [Text(head + " ON ")] + PredicateSerialize.AllPieces(Raw(Keyword(raw, j) + " ON ", raw.binds, None), j.filters)
  }

  /**
   * For `Local` filters (one with exactly one bind has at least four
   * characters of text, so the " IN " rewrite stays inside the filter;
   * no builder method writes a join's `filters`), the join is an aligned
   * extension of the incoming fragment without a cast: its text followed by the join's
   * pieces, its binds followed by the filters', placeholder `$p` naming the
   * `p`-th bind.
   */
  lemma JoinAligned(raw: Raw, j: Join)
    requires raw.cast == None
    requires forall i :: 0 <= i < |j.filters| ==> PredicateSerialize.Local(j.filters[i])
    ensures Extends(raw, JoinSql(raw, j), JoinPieces(raw, j), AllBinds(j.filters))
  {
    var head := Items.JoinMethodSql(j.joinMethod) + "JOIN " + j.from;
    var on := Raw(Keyword(raw, j) + " ON ", raw.binds, None);
    if |j.filters| == 0 {
      PiecePair(Text(head), Text(""));
      Assoc(raw.sql, Items.JoinMethodSql(j.joinMethod) + "JOIN ", j.from);
      Assoc(raw.sql, Items.JoinMethodSql(j.joinMethod), "JOIN ");
      AppendEmpty(raw.binds);
    } else {
      PredicateSerialize.SerializedExtends(on, j.filters);
      assert on.sql == raw.sql + (head + " ON ") by {
        Assoc(raw.sql, Items.JoinMethodSql(j.joinMethod), "JOIN ");
        Assoc(raw.sql, Items.JoinMethodSql(j.joinMethod) + "JOIN ", j.from);
        Assoc(raw.sql, head, " ON ");
      }
      assert Extends(raw, on, [Text(head + " ON ")], []) by {
        PiecePair(Text(head + " ON "), Text(""));
        AppendEmpty(raw.binds);
      }
      ExtendsChain(raw, on, JoinSql(raw, j), [Text(head + " ON ")],
                   PredicateSerialize.AllPieces(on, j.filters), [], AllBinds(j.filters));
    }
  }

  // ---- The `on`/`orOn` conditions ----

  /**
   * The fragment `on`/`orOn` add to a join: the left column qualified by the
   * join's alias and, for two columns, the right one by `rightAlias`.
   */
  function OnFragment(quote: string -> string, j: Join, rightAlias: string, c: Conditions.Condition): Raw {
    Conditions.Fragment(quote, Conditions.Qualified(j.alias), Conditions.Qualified(rightAlias), c)
  }

  /** `filterAnd.append` (on) or `filterOr.append` (orOn) on one join; nothing else changes. */
  function WithCondition(j: Join, f: Raw, isOr: bool): (r: Join)
    ensures r.alias == j.alias && r.from == j.from && r.joinMethod == j.joinMethod && r.filters == j.filters
    ensures !isOr ==> r.filterAnd == j.filterAnd + [f] && r.filterOr == j.filterOr
    ensures isOr ==> r.filterOr == j.filterOr + [f] && r.filterAnd == j.filterAnd
  {
    if isOr then j.(filterOr := j.filterOr + [f]) else j.(filterAnd := j.filterAnd + [f])
  }

  /** `on` conditions are qualified by the join they are added to, on the left. */
  lemma OnQualified(quote: string -> string, j: Join, rightAlias: string, c: Conditions.Condition)
    ensures quote(j.alias) + "." + quote(Conditions.Lhs(c).key) <= OnFragment(quote, j, rightAlias, c).sql
    ensures c.Columns? ==> EndsWith(OnFragment(quote, j, rightAlias, c).sql, quote(rightAlias) + "." + quote(c.cc.rhs.key))
  {
  }

  /** The joins that `paginate`'s count query keeps: the inner ones, in order. */
  function InnerJoins(js: seq<Join>): (r: seq<Join>)
    ensures |r| <= |js|
    ensures forall i :: 0 <= i < |r| ==> r[i].joinMethod == Items.Inner && r[i] in js
  {
    if js == [] then []
    else InnerJoins(js[..|js| - 1]) + (if js[|js| - 1].joinMethod == Items.Inner then [js[|js| - 1]] else [])
  }

  /** Every inner join is kept. */
  lemma {:induction false} InnerJoinsKeep(js: seq<Join>)
    ensures forall i :: 0 <= i < |js| && js[i].joinMethod == Items.Inner ==> js[i] in InnerJoins(js)
  {
    if js != [] {
      var init, last := js[..|js| - 1], js[|js| - 1];
      InnerJoinsKeep(init);
      assert InnerJoins(init) <= InnerJoins(js);
      forall i | 0 <= i < |js| && js[i].joinMethod == Items.Inner
        ensures js[i] in InnerJoins(js)
      {
        if i < |js| - 1 {
          assert init[i] == js[i];
          assert js[i] in InnerJoins(init);
        } else {
          assert InnerJoins(js) == InnerJoins(init) + [last];
        }
      }
    }
  }

  /** A list of inner joins is kept whole, in its order. */
  lemma {:induction false} InnerJoinsWhole(js: seq<Join>)
    requires forall i :: 0 <= i < |js| ==> js[i].joinMethod == Items.Inner
    ensures InnerJoins(js) == js
  {
    if js != [] {
      var init, last := js[..|js| - 1], js[|js| - 1];
      forall i | 0 <= i < |init|
        ensures init[i].joinMethod == Items.Inner
      {
        assert init[i] == js[i];
      }
      InnerJoinsWhole(init);
      assert last.joinMethod == Items.Inner;
      assert InnerJoins(js) == init + [last];
      assert init + [last] == js;
    }
  }
}
