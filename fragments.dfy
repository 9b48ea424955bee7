/**
 * The value model every clause is built from: bind values, raw fragments
 * (text plus ordered binds plus an optional cast type), and the rendering of
 * positional placeholders `$N`.
 *
 * Rendered text is described twice: as the plain string the builders append
 * to, and as a sequence of `Piece`s in which every placeholder is a
 * `Param(index, cast)`.  `Flatten` turns pieces into the string; `Placeholders`
 * lists the placeholder numbers in the order they appear.  Placeholder/bind
 * alignment is then stated as `Placeholders(pieces) == Range(j + 1, n)`: the
 * text contains exactly the placeholders `$j+1 .. $j+n`, in order, for the
 * `n` binds appended after the `j` binds already present.
 */
module Fragments {

  datatype Option<+T> = None | Some(value: T)

  /** A value passed as a bind (`Encodable`): a string, or any other encodable value. */
  datatype Bind = Str(s: string) | Other(id: nat)

  /**
   * A pre-quoted database literal: a string bind whose first and last
   * characters are single quotes (a single `'` qualifies).  Such binds are
   * written into the text instead of being sent as parameters.
   */
  predicate IsQuotedLiteral(b: Bind) {
    b.Str? && |b.s| > 0 && b.s[0] == '\'' && b.s[|b.s| - 1] == '\''
  }

  /** A column reference: key plus optional table (`Models/Column.swift`). */
  datatype Column = Column(key: string, table: Option<string>)

  /** `o ?? d`. */
  function OrElse(o: Option<string>, d: string): (r: string)
    ensures o.Some? ==> r == o.value
    ensures o.None? ==> r == d
  {
    if o.Some? then o.value else d
  }

  /** No double quote occurs in `s`: such a name round-trips through quoting. */
  predicate QuoteFree(s: string) {
    forall i :: 0 <= i < |s| ==> s[i] != '"'
  }

  /** `"\"" + s + "\""`: the explicit double-quote wrapping of identifiers. */
  function DQ(s: string): (r: string)
    ensures |r| == |s| + 2 && r[0] == '"' && r[|r| - 1] == '"'
  {
    "\"" + s + "\""
  }

  /**
   * Splits `r` at the first occurrence of `c`: the text before it and the text
   * after it, or `None` when `c` does not occur.
   */
  function SplitAt(r: string, c: char): Option<(string, string)> {
    if r == [] then None
    else if r[0] == c then Some(([], r[1..]))
    else match SplitAt(r[1..], c)
      case None => None
      case Some(p) => Some(([r[0]] + p.0, p.1))
  }

  /** A quote-free name followed by a closing quote splits back into the name and the rest. */
  lemma {:induction false} SplitAtQuote(s: string, rest: string)
    requires QuoteFree(s)
    ensures SplitAt(s + "\"" + rest, '"') == Some((s, rest))
  {
    if s == [] {
      assert s + "\"" + rest == ['"'] + rest;
      assert (['"'] + rest)[1..] == rest;
    } else {
      assert (s + "\"" + rest)[1..] == s[1..] + "\"" + rest;
      assert (s + "\"" + rest)[0] == s[0];
      SplitAtQuote(s[1..], rest);
      assert [s[0]] + s[1..] == s;
    }
  }

  /** `DBRaw` (cast always absent) and `Raw` (with an optional cast type). */
  datatype Raw = Raw(sql: string, binds: seq<Bind>, cast: Option<string>)

  /** A `DBRaw` fragment: text and binds, no cast type. */
  function DBRaw(sql: string, binds: seq<Bind>): Raw {
    Raw(sql, binds, None)
  }

  /** The string values among `binds`, in order (`compactMap { $0 as? String }`). */
  function StrValues(binds: seq<Bind>): (r: seq<string>)
    ensures |r| <= |binds|
  {
    if binds == [] then []
    else (if binds[0].Str? then [binds[0].s] else []) + StrValues(binds[1..])
  }

  /** `s.suffix(|suffix|) == suffix`: false when `s` is shorter than `suffix`. */
  predicate EndsWith(s: string, suffix: string) {
    |suffix| <= |s| && s[|s| - |suffix|..] == suffix
  }

  /** `parts.joined(separator: sep)`. */
  function Join(parts: seq<string>, sep: string): string {
    if |parts| == 0 then ""
    else if |parts| == 1 then parts[0]
    else parts[0] + sep + Join(parts[1..], sep)
  }

  /** The texts of the fragments, in order (`map { $0.sql }`). */
  function Sqls(fs: seq<Raw>): (r: seq<string>)
    ensures |r| == |fs| && forall i :: 0 <= i < |fs| ==> r[i] == fs[i].sql
  {
    if fs == [] then [] else [fs[0].sql] + Sqls(fs[1..])
  }

  /** The binds of the fragments, concatenated in order (`flatMap { $0.binds }`). */
  function AllBinds(fs: seq<Raw>): seq<Bind> {
    if fs == [] then [] else AllBinds(fs[..|fs| - 1]) + fs[|fs| - 1].binds
  }

  function DigitChar(d: nat): char
    requires d < 10
  {
    ('0' as int + d) as char
  }

  /** Decimal rendering of a natural number, as string interpolation writes it. */
  function NatToString(n: nat): (r: string)
    ensures |r| >= 1 && r[0] != '-'
  {
    if n < 10 then [DigitChar(n)] else NatToString(n / 10) + [DigitChar(n % 10)]
  }

  /** Decimal rendering of an integer, with a leading `-` when negative. */
  function IntToString(i: int): (r: string)
    ensures |r| >= 1
    ensures (i < 0) == (r[0] == '-')
  {
    if i < 0 then "-" + NatToString(-i) else NatToString(i)
  }

  /** A piece of rendered text: literal text, or the placeholder `$index` (with `::cast`). */
  datatype Piece = Text(s: string) | Param(index: nat, cast: Option<string>)

  /** `$index`, or `$index::type` when a cast type is given. */
  function PlaceholderText(index: nat, cast: Option<string>): string
  {
    "$" + NatToString(index) + (if cast.Some? then "::" + cast.value else "")
  }

  function PieceText(p: Piece): string {
    match p
    case Text(s) => s
    case Param(index, cast) => PlaceholderText(index, cast)
  }

  /** The string the pieces stand for. */
  function Flatten(ps: seq<Piece>): string {
    if ps == [] then "" else PieceText(ps[0]) + Flatten(ps[1..])
  }

  /** The placeholder numbers among the pieces, in the order they are written. */
  function Placeholders(ps: seq<Piece>): seq<nat> {
    if ps == [] then []
    else (if ps[0].Param? then [ps[0].index] else []) + Placeholders(ps[1..])
  }

  /** The consecutive numbers `from, from + 1, ..., from + n - 1`. */
  function Range(from: nat, n: nat): (r: seq<nat>)
    ensures |r| == n
    ensures forall i :: 0 <= i < n ==> r[i] == from + i
    decreases n
  {
    if n == 0 then [] else [from] + Range(from + 1, n - 1)
  }

  /** Sequence concatenation is associative (stated once, so proofs need not re-derive it). */
  lemma Assoc<T>(a: seq<T>, b: seq<T>, c: seq<T>)
    ensures (a + b) + c == a + (b + c)
  {
  }

  lemma AppendEmpty<T>(a: seq<T>)
    ensures a + [] == a && [] + a == a
  {
  }

  lemma {:induction false} FlattenAppend(a: seq<Piece>, b: seq<Piece>)
    ensures Flatten(a + b) == Flatten(a) + Flatten(b)
  {
    if a == [] {
      assert a + b == b;
    } else {
      assert (a + b)[1..] == a[1..] + b;
      assert (a + b)[0] == a[0];
      FlattenAppend(a[1..], b);
      Assoc(PieceText(a[0]), Flatten(a[1..]), Flatten(b));
    }
  }

  lemma {:induction false} PlaceholdersAppend(a: seq<Piece>, b: seq<Piece>)
    ensures Placeholders(a + b) == Placeholders(a) + Placeholders(b)
  {
    if a == [] {
      assert a + b == b;
    } else {
      assert (a + b)[1..] == a[1..] + b;
      assert (a + b)[0] == a[0];
      PlaceholdersAppend(a[1..], b);
      Assoc(if a[0].Param? then [a[0].index] else [], Placeholders(a[1..]), Placeholders(b));
    }
  }

  /** Flattening and listing the placeholders of one or two pieces. */
  lemma PiecePair(p: Piece, q: Piece)
    ensures Flatten([p]) == PieceText(p) && Flatten([p, q]) == PieceText(p) + PieceText(q)
    ensures Placeholders([p]) == (if p.Param? then [p.index] else [])
    ensures Placeholders([p, q]) == Placeholders([p]) + Placeholders([q])
  {
    assert [p, q][1..] == [q];
    assert [p][1..] == [];
    assert [q][1..] == [];
    AppendEmpty(PieceText(p));
    AppendEmpty(PieceText(q));
    AppendEmpty(Placeholders([p]));
    AppendEmpty(Placeholders([q]));
  }

  lemma RangeSplit(from: nat, n: nat, m: nat)
    ensures Range(from, n + m) == Range(from, n) + Range(from + n, m)
  {
  }

  /**
   * What the inner placeholder loops write before the last placeholder:
   * `$from, $from+1, ..., ` (`k` placeholders, each followed by ", ").
   */
  function CommaParams(from: nat, k: nat, cast: Option<string>): seq<Piece>
    decreases k
  {
    if k == 0 then [] else CommaParams(from, k - 1, cast) + [Param(from + k - 1, cast), Text(", ")]
  }

  /** The comma-separated placeholders `$from, ..., $from+n-1`. */
  function ParamList(from: nat, n: nat, cast: Option<string>): seq<Piece>
    requires n >= 1
  {
    CommaParams(from, n - 1, cast) + [Param(from + n - 1, cast)]
  }

  lemma {:induction false} CommaParamsPlaceholders(from: nat, k: nat, cast: Option<string>)
    ensures Placeholders(CommaParams(from, k, cast)) == Range(from, k)
  {
    if k > 0 {
      CommaParamsPlaceholders(from, k - 1, cast);
      PlaceholdersAppend(CommaParams(from, k - 1, cast), [Param(from + k - 1, cast), Text(", ")]);
      PiecePair(Param(from + k - 1, cast), Text(", "));
      PiecePair(Text(", "), Text(", "));
      RangeSplit(from, k - 1, 1);
    }
  }

  /** A placeholder list names exactly the consecutive numbers `from .. from+n-1`. */
  lemma ParamListPlaceholders(from: nat, n: nat, cast: Option<string>)
    requires n >= 1
    ensures Placeholders(ParamList(from, n, cast)) == Range(from, n)
  {
    CommaParamsPlaceholders(from, n - 1, cast);
    PlaceholdersAppend(CommaParams(from, n - 1, cast), [Param(from + n - 1, cast)]);
    PiecePair(Param(from + n - 1, cast), Text(""));
    RangeSplit(from, n - 1, 1);
  }

  /** The text of `CommaParams`, written the way the loops build it. */
  function CommaText(from: nat, k: nat, cast: Option<string>): string
    decreases k
  {
    if k == 0 then "" else CommaText(from, k - 1, cast) + (PlaceholderText(from + k - 1, cast) + ", ")
  }

  lemma {:induction false} CommaTextFlatten(from: nat, k: nat, cast: Option<string>)
    ensures Flatten(CommaParams(from, k, cast)) == CommaText(from, k, cast)
  {
    if k > 0 {
      var p, q := Param(from + k - 1, cast), Text(", ");
      CommaTextFlatten(from, k - 1, cast);
      FlattenAppend(CommaParams(from, k - 1, cast), [p, q]);
      PiecePair(p, q);
      assert PieceText(p) + PieceText(q) == PlaceholderText(from + k - 1, cast) + ", ";
    }
  }

  /** The text of `ParamList`: the comma-separated part followed by the last placeholder. */
  lemma ParamListText(from: nat, n: nat, cast: Option<string>)
    requires n >= 1
    ensures Flatten(ParamList(from, n, cast)) == CommaText(from, n - 1, cast) + PlaceholderText(from + n - 1, cast)
  {
    CommaTextFlatten(from, n - 1, cast);
    FlattenAppend(CommaParams(from, n - 1, cast), [Param(from + n - 1, cast)]);
    PiecePair(Param(from + n - 1, cast), Text(""));
  }

  /**
   * The inner placeholder loop shared by the serializers: advances the
   * counter `n` times and writes `$j+1, ..., $j+n` (each with `::cast`),
   * returning the text written and the new counter.
   */
  method WritePlaceholders(j: nat, n: nat, cast: Option<string>) returns (text: string, j': nat)
    requires n >= 1
    ensures j' == j + n
    ensures text == Flatten(ParamList(j + 1, n, cast))
  {
    var written := "";
    j' := j;
    var k := 0;
    while k < n - 1
      invariant 0 <= k <= n - 1
      invariant j' == j + k
      invariant written == CommaText(j + 1, k, cast)
    {
      j' := j' + 1;
      written := written + (PlaceholderText(j', cast) + ", ");
      k := k + 1;
    }
    j' := j' + 1;
    text := written + PlaceholderText(j', cast);
    ParamListText(j + 1, n, cast);
  }

  // ---- Aligned extensions ----

  /** Text pieces around a run of pieces add their text around its text. */
  lemma WrappedText(o: string, ls: seq<Piece>, c: string)
    ensures Flatten([Text(o)] + ls + [Text(c)]) == o + Flatten(ls) + c
  {
    FlattenAppend([Text(o)] + ls, [Text(c)]);
    FlattenAppend([Text(o)], ls);
    PiecePair(Text(o), Text(c));
  }

  /** Text pieces around a run of pieces add no placeholders. */
  lemma WrappedPlaceholders(o: string, ls: seq<Piece>, c: string)
    ensures Placeholders([Text(o)] + ls + [Text(c)]) == Placeholders(ls)
  {
    PlaceholdersAppend([Text(o)] + ls, [Text(c)]);
    PlaceholdersAppend([Text(o)], ls);
    PiecePair(Text(o), Text(c));
    PiecePair(Text(c), Text(o));
    AppendEmpty(Placeholders(ls));
  }

  /** `RangeSplit` with the split point and the total passed as given terms. */
  lemma RangeJoin(from: nat, a: nat, b: nat, mid: nat, total: nat)
    requires mid == from + a && total == a + b
    ensures Range(from, total) == Range(from, a) + Range(mid, b)
  {
    RangeSplit(from, a, b);
  }

  /**
   * The alignment invariant of the serializers: `out` is `raw` with the text
   * of `ps` appended to its SQL and `sent` appended to its binds, its cast
   * flag kept, and the placeholders of `ps` are `$m+1, ..., $m+k` for the
   * `m` incoming and `k` appended binds, so placeholder `$p` names the
   * `p`-th bind of `out`.
   */
  predicate Extends(raw: Raw, out: Raw, ps: seq<Piece>, sent: seq<Bind>) {
    && out.sql == raw.sql + Flatten(ps)
    && out.binds == raw.binds + sent
    && Placeholders(ps) == Range(|raw.binds| + 1, |sent|)
    && out.cast == raw.cast
  }

  /** Two aligned extensions, one after the other, are one aligned extension. */
  lemma ExtendsChain(raw: Raw, mid: Raw, out: Raw, p1: seq<Piece>, p2: seq<Piece>, a: seq<Bind>, b: seq<Bind>)
    requires Extends(raw, mid, p1, a) && Extends(mid, out, p2, b)
    ensures Extends(raw, out, p1 + p2, a + b)
  {
    FlattenAppend(p1, p2);
    Assoc(raw.sql, Flatten(p1), Flatten(p2));
    Assoc(raw.binds, a, b);
    PlaceholdersAppend(p1, p2);
    RangeJoin(|raw.binds| + 1, |a|, |b|, |mid.binds| + 1, |a + b|);
  }

  /** Appending nothing is an aligned extension. */
  lemma ExtendsNothing(raw: Raw)
    ensures Extends(raw, raw, [], [])
  {
    AppendEmpty(raw.sql);
    AppendEmpty(raw.binds);
  }

  /** Aligned pieces with text around them make an aligned extension. */
  lemma ExtendsWrapped(raw: Raw, out: Raw, o: string, ls: seq<Piece>, c: string, sent: seq<Bind>)
    requires out.sql == raw.sql + (o + Flatten(ls) + c)
    requires out.binds == raw.binds + sent && out.cast == raw.cast
    requires Placeholders(ls) == Range(|raw.binds| + 1, |sent|)
    ensures Extends(raw, out, [Text(o)] + ls + [Text(c)], sent)
  {
    WrappedText(o, ls, c);
    WrappedPlaceholders(o, ls, c);
  }
}
