/**
 * The predicate list of the select/delete generation
 * (`Protocols/DBPredicateForSelectDelete.swift`): every call appends one
 * fragment to `filters`, and the conjunction (" AND " or " OR ") is written
 * into the fragment itself, unless the list is empty or its last fragment is
 * an opening bracket.  The list is later rendered by `PredicateSerialize`.
 */
module SelectDeletePredicate {
  import opened Fragments
  import Operators
  import Conditions

  /** The argument forms of the `filter`/`orFilter` overloads. */
  datatype Predicate =
    | Columns(cc: Operators.ColumnColumn)                              // filter(_: ColumnColumn)
    | Value(cb: Operators.ColumnBind, cast: Option<string>)            // filter(_: ColumnBind, as:)
    | Values(cbs: Operators.ColumnBinds, cast: Option<string>)         // filter(_: ColumnBinds, as:)
    | CustomValue(column: Column, custom: string, bind: Bind)          // filter(_: Column, _: String, _: Encodable)
    | CustomValues(column: Column, custom: string, binds: seq<Bind>)   // filter(_: Column, _: String, _: [Encodable])
    | QueryValue(query: string, custom: string, bind: Bind)            // filter(_: String, _: String, _: Encodable)
    | QueryValues(query: string, custom: string, binds: seq<Bind>)     // filter(_: String, _: String, _: [Encodable])
    | QueryColumn(query: string, custom: string, rhs: Column)          // filter(_: String, _: String, _: Column)

  /** The forms that also have an `orFilter` overload. */
  predicate HasOrForm(p: Predicate) {
    p.Columns? || p.Value? || p.Values? || p.CustomValue?
  }

  /** `DBColumn(column).serialize()`: the column with its own table, no alias. */
  function Col(quote: string -> string, c: Column): string {
    Conditions.ColumnRef(quote, Conditions.OwnTable, c)
  }

  /** The fragment an overload builds, before the conjunction is put in front of it. */
  function Fragment(quote: string -> string, p: Predicate): (r: Raw)
    ensures p.Columns? || p.QueryColumn? ==> r.binds == []
    ensures p.Value? ==> r.binds == [p.cb.rhs]
    ensures p.CustomValue? || p.QueryValue? ==> r.binds == [p.bind]
    ensures p.Values? ==> r.binds == p.cbs.rhs
    ensures p.CustomValues? || p.QueryValues? ==> r.binds == p.binds
    ensures r.cast == if p.Value? || p.Values? then p.cast else None
    ensures p.CustomValue? || p.CustomValues? ==> r.sql == Col(quote, p.column) + Conditions.Padded(p.custom)
    ensures p.QueryValue? || p.QueryValues? ==> r.sql == p.query + Conditions.Padded(p.custom)
  {
    match p
    case Columns(cc) => DBRaw(Col(quote, cc.lhs) + cc.op + Col(quote, cc.rhs), [])
    case Value(cb, cast) => Raw(Col(quote, cb.lhs) + cb.op, [cb.rhs], cast)
    case Values(cbs, cast) => Raw(Col(quote, cbs.lhs) + cbs.op, cbs.rhs, cast)
    case CustomValue(column, custom, bind) => DBRaw(Col(quote, column) + " " + custom + " ", [bind])
    case CustomValues(column, custom, binds) => DBRaw(Col(quote, column) + " " + custom + " ", binds)
    case QueryValue(query, custom, bind) => DBRaw(query + " " + custom + " ", [bind])
    case QueryValues(query, custom, binds) => DBRaw(query + " " + custom + " ", binds)
    case QueryColumn(query, custom, rhs) => DBRaw(query + " " + custom + " " + Col(quote, rhs), [])
  }

  /** The conjunction is written unless the list is empty or ends with an opening bracket. */
  predicate Joins(fs: seq<Raw>) {
    |fs| > 0 && fs[|fs| - 1].sql != "("
  }

  /** `fs` with `f` appended, `word` written in front of it when the list `Joins`. */
  function Appended(fs: seq<Raw>, word: string, f: Raw): seq<Raw> {
    fs + [Raw((if Joins(fs) then word else "") + f.sql, f.binds, f.cast)]
  }

  /**
   * One call appends exactly one fragment and leaves the earlier ones
   * unchanged; the new fragment carries the argument's binds and cast, and
   * its text is the argument's, preceded by the conjunction exactly when the
   * list is non-empty and its last fragment is not "(".
   */
  lemma AppendedShape(fs: seq<Raw>, word: string, f: Raw)
    ensures |Appended(fs, word, f)| == |fs| + 1 && Appended(fs, word, f)[..|fs|] == fs
    ensures Appended(fs, word, f)[|fs|].binds == f.binds && Appended(fs, word, f)[|fs|].cast == f.cast
    ensures Joins(fs) ==> Appended(fs, word, f)[|fs|].sql == word + f.sql
    ensures !Joins(fs) ==> Appended(fs, word, f)[|fs|].sql == f.sql
  {
    assert (fs + [Raw((if Joins(fs) then word else "") + f.sql, f.binds, f.cast)])[..|fs|] == fs;
  }

  /** The binds of the list are those of the earlier calls followed by the new call's, in order. */
  lemma AppendedBinds(fs: seq<Raw>, word: string, f: Raw)
    ensures AllBinds(Appended(fs, word, f)) == AllBinds(fs) + f.binds
  {
    AppendedShape(fs, word, f);
  }

  /** After an opening bracket the next filter gets no conjunction; after anything else it does. */
  lemma BracketRule(fs: seq<Raw>, word: string, f: Raw, g: Raw)
    requires word == " AND " || word == " OR "
    ensures Appended(fs + [DBRaw("(", [])], word, g)[|fs| + 1].sql == g.sql
    ensures f.sql != "(" ==> Appended(Appended(fs, word, f), word, g)[|fs| + 1].sql == word + g.sql
  {
    AppendedShape(fs + [DBRaw("(", [])], word, g);
    AppendedShape(fs, word, f);
    AppendedShape(Appended(fs, word, f), word, g);
    if f.sql != "(" {
      var last := Appended(fs, word, f)[|fs|].sql;
      if Joins(fs) {
        assert last[0] == ' ' && "("[0] == '(';
      }
      assert last != "(";
      assert Joins(Appended(fs, word, f));
    }
  }

  /**
   * A select or delete builder's predicate list.  `quote` is the `col:`
   * identifier quoting, which is not part of this model.
   */
  class PredicateList {
    const quote: string -> string
    var filters: seq<Raw>

    constructor(quote: string -> string)
      ensures this.quote == quote && filters == []
    {
      this.quote := quote;
      filters := [];
    }

    /** `openBracket()`: a bind-less "(" (no conjunction). */
    method OpenBracket()
      modifies this
      ensures filters == old(filters) + [DBRaw("(", [])]
    {
      filters := filters + [DBRaw("(", [])];
    }

    /** `closeBracket()`: a bind-less ")". */
    method CloseBracket()
      modifies this
      ensures filters == old(filters) + [DBRaw(")", [])]
    {
      filters := filters + [DBRaw(")", [])];
    }

    /** The `filter` overloads: the fragment, with " AND " in front when the list `Joins`. */
    method Filter(p: Predicate)
      modifies this
      ensures filters == Appended(old(filters), " AND ", Fragment(quote, p))
    {
      var f := Fragment(quote, p);
      var conj := "";
      if |filters| > 0 && filters[|filters| - 1].sql != "(" {
        conj := " AND ";
      }
      filters := filters + [Raw(conj + f.sql, f.binds, f.cast)];
    }

    /** The `orFilter` overloads: the same with " OR ". */
    method OrFilter(p: Predicate)
      requires HasOrForm(p)
      modifies this
      ensures filters == Appended(old(filters), " OR ", Fragment(quote, p))
    {
      var f := Fragment(quote, p);
      var conj := "";
      if |filters| > 0 && filters[|filters| - 1].sql != "(" {
        conj := " OR ";
      }
      filters := filters + [Raw(conj + f.sql, f.binds, f.cast)];
    }

    /** `filter(_: DBRaw)`: the fragment verbatim, with no conjunction. */
    method FilterRaw(sql: Raw)
      modifies this
      ensures filters == old(filters) + [sql]
    {
      filters := filters + [sql];
    }
  }
}
