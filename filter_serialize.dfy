/**
 * The two-list predicate serializer (`DBFilterSerialize.swift`): the AND
 * list and the OR list of a builder are rendered after an incoming fragment,
 * numbering placeholders on from the binds the fragment already carries.
 *
 * Every item is rendered as a `Shape`: text before its placeholders, the
 * number of placeholders, text after them.  `ListPieces` lays the items of a
 * list out one after the other; the serializer methods are proved to write
 * exactly `Flatten` of those pieces and to append exactly `ListBinds`, and
 * `ClauseAligned` and `FilterAligned` show that the result `Extends` the
 * incoming fragment: the placeholders written are `$j+1 .. $j+n` for the `n`
 * binds appended.
 */
module FilterSerialize {
  import opened Fragments

  /** `DBCondition`: which list is rendered. Its separator text is passed alongside. */
  datatype Condition = And | Or

  /** The text around an item's placeholders and how many placeholders it has. */
  datatype Shape = Shape(pre: string, count: nat, post: string)

  /** `sql.hasSuffix(" IN ")`. */
  predicate InSuffix(sql: string) {
    EndsWith(sql, " IN ")
  }

  /**
   * Whether a single value after text ending in " IN " is parenthesised:
   * the filter lists do this, the SET list of an update does not.
   */
  predicate WrapsIn(f: Raw, wrapIn: bool) {
    wrapIn && InSuffix(f.sql)
  }

  /** The binds an item sends: none when it has none or its first bind is a quoted literal. */
  function ItemBinds(f: Raw): seq<Bind> {
    if |f.binds| == 0 || IsQuotedLiteral(f.binds[0]) then [] else f.binds
  }

  /**
   * The text of an item before its placeholders; for an item with none, its
   * whole text.  `isLast` is true for the final item, which is followed by
   * nothing; every earlier item is followed by the conjunction, except an
   * inlined literal, which is followed by ", ".
   */
  function ItemPre(f: Raw, conj: string, wrapIn: bool, isLast: bool): string {
    var tail := if isLast then "" else conj;
    var litTail := if isLast then "" else ", ";
    if |f.binds| == 0 then f.sql + tail
    else if IsQuotedLiteral(f.binds[0]) then
      if |f.binds| == 1 then
        if WrapsIn(f, wrapIn) then f.sql + "(" + f.binds[0].s + ")" + litTail
        else f.sql + f.binds[0].s + litTail
      else f.sql + "(" + Join(StrValues(f.binds), ", ") + ")" + litTail
    else if |f.binds| == 1 && !WrapsIn(f, wrapIn) then f.sql
    else f.sql + "("
  }

  /** The text of an item after its placeholders. */
  function ItemPost(f: Raw, conj: string, wrapIn: bool, isLast: bool): string {
    var tail := if isLast then "" else conj;
    if |f.binds| == 0 || IsQuotedLiteral(f.binds[0]) then ""
    else if |f.binds| == 1 && !WrapsIn(f, wrapIn) then tail
    else ")" + tail
  }

  /** How one item renders: one placeholder for each bind it sends. */
  function ItemShape(f: Raw, conj: string, wrapIn: bool, isLast: bool): Shape {
    Shape(ItemPre(f, conj, wrapIn, isLast), |ItemBinds(f)|, ItemPost(f, conj, wrapIn, isLast))
  }

  /** The placeholders of a shape whose first placeholder follows `$j`. */
  function ShapeParams(count: nat, j: nat): seq<Piece> {
    if count == 0 then [] else ParamList(j + 1, count, None)
  }

  function ShapePieces(s: Shape, j: nat): seq<Piece> {
    [Text(s.pre)] + ShapeParams(s.count, j) + [Text(s.post)]
  }

  /** The text a shape spells. */
  function ShapeText(s: Shape, j: nat): string {
    Flatten(ShapePieces(s, j))
  }

  /**
   * A shape's text: its text before, then the placeholders `$j+1, ...,
   * $j+count` separated by ", ", then its text after.
   */
  lemma ShapeForm(s: Shape, j: nat)
    ensures ShapeText(s, j)
         == if s.count == 0 then s.pre + s.post
            else s.pre + ((CommaText(j + 1, s.count - 1, None) + PlaceholderText(j + s.count, None)) + s.post)
  {
    var ps := ShapeParams(s.count, j);
    WrappedText(s.pre, ps, s.post);
    if s.count == 0 {
      AppendEmpty(s.pre);
    } else {
      ParamListText(j + 1, s.count, None);
      Assoc(s.pre, Flatten(ps), s.post);
    }
  }

  /** A shape's placeholders are `$j+1, ..., $j+count`. */
  lemma ShapePlaceholders(s: Shape, j: nat)
    ensures Placeholders(ShapePieces(s, j)) == Range(j + 1, s.count)
  {
    var ps := ShapeParams(s.count, j);
    WrappedPlaceholders(s.pre, ps, s.post);
    if s.count > 0 {
      ParamListPlaceholders(j + 1, s.count, None);
    }
  }

  /** The binds the first `n` items of `fs` send, in order. */
  function ListBinds(fs: seq<Raw>, n: nat): seq<Bind>
    requires n <= |fs|
  {
    if n == 0 then [] else ListBinds(fs, n - 1) + ItemBinds(fs[n - 1])
  }

  /** The number of the placeholder before item `n`'s first: `$j` plus the binds sent before it. */
  function Offset(fs: seq<Raw>, n: nat, j: nat): nat
    requires n <= |fs|
  {
    j + |ListBinds(fs, n)|
  }

  /**
   * The first `n` items of `fs`, each rendered as a non-final item, its
   * placeholders numbered on from `$j` plus the binds sent before it.
   */
  function BodyPieces(fs: seq<Raw>, conj: string, wrapIn: bool, n: nat, j: nat): seq<Piece>
    requires n <= |fs|
  {
    if n == 0 then []
    else BodyPieces(fs, conj, wrapIn, n - 1, j) + ShapePieces(ItemShape(fs[n - 1], conj, wrapIn, false), Offset(fs, n - 1, j))
  }

  /** The text of the first `n` items. */
  function BodyText(fs: seq<Raw>, conj: string, wrapIn: bool, n: nat, j: nat): string
    requires n <= |fs|
  {
    Flatten(BodyPieces(fs, conj, wrapIn, n, j))
  }

  /** A non-empty list: every item but the last as a non-final item, then the last one. */
  function ListPieces(fs: seq<Raw>, conj: string, wrapIn: bool, j: nat): seq<Piece>
    requires |fs| > 0
  {
    BodyPieces(fs, conj, wrapIn, |fs| - 1, j) + ShapePieces(ItemShape(fs[|fs| - 1], conj, wrapIn, true), Offset(fs, |fs| - 1, j))
  }

  function ListText(fs: seq<Raw>, conj: string, wrapIn: bool, j: nat): string
    requires |fs| > 0
  {
    Flatten(ListPieces(fs, conj, wrapIn, j))
  }

  /** The OR list is wrapped as ` AND (...)` when the AND list is non-empty. */
  function Opening(cond: Condition, filterAnd: seq<Raw>): string {
    if cond == Or && |filterAnd| > 0 then " " + "AND (" else " "
  }

  function Closing(cond: Condition, filterAnd: seq<Raw>): string {
    if cond == Or && |filterAnd| > 0 then ")" else ""
  }

  function Selected(cond: Condition, filterAnd: seq<Raw>, filterOr: seq<Raw>): seq<Raw> {
    if cond == And then filterAnd else filterOr
  }

  /** The binds a whole list sends, in order. */
  function Sent(fs: seq<Raw>): seq<Bind> {
    ListBinds(fs, |fs|)
  }

  /**
   * `serializeItem(source:conjunction:)`: the incoming fragment unchanged
   * when the selected list is empty; otherwise its text followed by the
   * rendered list and its binds followed by the binds the list sends.
   */
  function Clause(raw: Raw, filterAnd: seq<Raw>, filterOr: seq<Raw>, cond: Condition, conj: string): Raw {
    var fs := Selected(cond, filterAnd, filterOr);
    if |fs| == 0 then raw
    else Raw(raw.sql + (Opening(cond, filterAnd) + ListText(fs, conj, true, |raw.binds|) + Closing(cond, filterAnd)),
             raw.binds + Sent(fs), raw.cast)
  }

  /** `serializeFilter(source:)`: the AND list, then the OR list after it. */
  function Filter(raw: Raw, filterAnd: seq<Raw>, filterOr: seq<Raw>, andSep: string, orSep: string): Raw {
    Clause(Clause(raw, filterAnd, filterOr, And, andSep), filterAnd, filterOr, Or, orSep)
  }

  // ---- The serializer ----

  /**
   * One item of `serializeItem`, written by the loop for earlier items and
   * after it for the last one: the text written for it and the binds it
   * sends, with the counter `j` advanced by one per placeholder.
   */
  method WriteItem(f: Raw, j: nat, conj: string, wrapIn: bool, isLast: bool, ghost k: nat)
    returns (text: string, sent: seq<Bind>, j': nat)
    requires k == j
    ensures text == ShapeText(ItemShape(f, conj, wrapIn, isLast), k)
    ensures sent == ItemBinds(f) && j' == j + |sent|
  {
    ShapeForm(ItemShape(f, conj, wrapIn, isLast), k);
    var tail := if isLast then "" else conj;
    var litTail := if isLast then "" else ", ";
    if |f.binds| == 0 {
      text, sent, j' := f.sql + tail, [], j;
    } else if |f.binds| == 1 {
      if IsQuotedLiteral(f.binds[0]) {
        var val := f.binds[0].s;
        if WrapsIn(f, wrapIn) {
          text := f.sql + "(" + val + ")" + litTail;
        } else {
          text := f.sql + val + litTail;
        }
        sent, j' := [], j;
      } else {
        sent := f.binds;
        j' := j + 1;
        if WrapsIn(f, wrapIn) {
          text := f.sql + "(" + ((CommaText(j + 1, 0, None) + PlaceholderText(j', None)) + (")" + tail));
        } else {
          text := f.sql + ((CommaText(j + 1, 0, None) + PlaceholderText(j', None)) + tail);
        }
      }
    } else {
      if IsQuotedLiteral(f.binds[0]) {
        var vals := Join(StrValues(f.binds), ", ");
        text, sent, j' := f.sql + "(" + vals + ")" + litTail, [], j;
      } else {
        sent := f.binds;
        var params;
        params, j' := WritePlaceholders(j, |f.binds|, None);
        ParamListText(j + 1, |f.binds|, None);
        text := f.sql + "(" + (params + (")" + tail));
      }
    }
  }

  /** The body of `n + 1` items is the body of `n` items followed by item `n`. */
  lemma BodyStep(fs: seq<Raw>, conj: string, wrapIn: bool, n: nat, j: nat)
    requires n < |fs|
    ensures BodyText(fs, conj, wrapIn, n + 1, j) == BodyText(fs, conj, wrapIn, n, j) + ShapeText(ItemShape(fs[n], conj, wrapIn, false), Offset(fs, n, j))
  {
    FlattenAppend(BodyPieces(fs, conj, wrapIn, n, j), ShapePieces(ItemShape(fs[n], conj, wrapIn, false), Offset(fs, n, j)));
  }

  /** A list is its body followed by its last item. */
  lemma ListStep(fs: seq<Raw>, conj: string, wrapIn: bool, j: nat)
    requires |fs| > 0
    ensures ListText(fs, conj, wrapIn, j)
         == BodyText(fs, conj, wrapIn, |fs| - 1, j) + ShapeText(ItemShape(fs[|fs| - 1], conj, wrapIn, true), Offset(fs, |fs| - 1, j))
  {
    FlattenAppend(BodyPieces(fs, conj, wrapIn, |fs| - 1, j), ShapePieces(ItemShape(fs[|fs| - 1], conj, wrapIn, true), Offset(fs, |fs| - 1, j)));
  }

  /** The binds of `n + 1` items are those of `n` items followed by item `n`'s. */
  lemma ListBindsStep(fs: seq<Raw>, n: nat)
    requires n < |fs|
    ensures ListBinds(fs, n + 1) == ListBinds(fs, n) + ItemBinds(fs[n])
  {
  }

  /**
   * `serializeItem(source:conjunction:)`.  `conj` is the selected
   * condition's separator text.
   */
  method SerializeItem(raw: Raw, filterAnd: seq<Raw>, filterOr: seq<Raw>, cond: Condition, conj: string)
    returns (r: Raw)
    ensures r == Clause(raw, filterAnd, filterOr, cond, conj)
  {
    var secondFilter := false;
    var opening := " ";
    var filters := if cond == And then filterAnd else filterOr;
    if cond == Or && |filterAnd| > 0 {
      secondFilter := true;
      opening := opening + "AND (";
    }
    if |filters| == 0 {
      return raw;
    }
    var last := |filters| - 1;
    var body, binds, j := WriteBody(filters, conj, true, last, raw.binds);
    var text, sent;
    text, sent, j := WriteItem(filters[last], j, conj, true, true, Offset(filters, last, |raw.binds|));
    ListStep(filters, conj, true, |raw.binds|);
    ListBindsStep(filters, last);
    Assoc(raw.binds, ListBinds(filters, last), ItemBinds(filters[last]));
    var closing := if secondFilter then ")" else "";
    r := Raw(raw.sql + (opening + (body + text) + closing), binds + sent, raw.cast);
  }

  /**
   * The loop of `serializeItem` over every item but the last:
   * each item's text appended to the body and its binds to `binds`, `j`
   * counting the placeholders written on from the incoming binds.
   */
  method WriteBody(filters: seq<Raw>, conj: string, wrapIn: bool, last: nat, binds0: seq<Bind>)
    returns (body: string, binds: seq<Bind>, j: nat)
    requires last <= |filters|
    ensures body == BodyText(filters, conj, wrapIn, last, |binds0|)
    ensures binds == binds0 + ListBinds(filters, last)
    ensures j == Offset(filters, last, |binds0|)
  {
    binds := binds0;
    j := |binds|;
    body := "";
    var i := 0;
    while i < last
      invariant 0 <= i <= last
      invariant binds == binds0 + ListBinds(filters, i)
      invariant j == Offset(filters, i, |binds0|)
      invariant body == BodyText(filters, conj, wrapIn, i, |binds0|)
    {
      body, binds, j := WriteNext(filters, conj, wrapIn, i, binds0, body, binds, j);
      i := i + 1;
    }
  }

  /** One pass of that loop: item `i` written as a non-final item. */
  method WriteNext(filters: seq<Raw>, conj: string, wrapIn: bool, i: nat, binds0: seq<Bind>, body: string, binds: seq<Bind>, j: nat)
    returns (body': string, binds': seq<Bind>, j': nat)
    requires i < |filters|
    requires binds == binds0 + ListBinds(filters, i)
    requires j == Offset(filters, i, |binds0|)
    requires body == BodyText(filters, conj, wrapIn, i, |binds0|)
    ensures binds' == binds0 + ListBinds(filters, i + 1)
    ensures j' == Offset(filters, i + 1, |binds0|)
    ensures body' == BodyText(filters, conj, wrapIn, i + 1, |binds0|)
  {
    var text, sent;
    text, sent, j' := WriteItem(filters[i], j, conj, wrapIn, false, Offset(filters, i, |binds0|));
    BodyStep(filters, conj, wrapIn, i, |binds0|);
    ListBindsStep(filters, i);
    Assoc(binds0, ListBinds(filters, i), ItemBinds(filters[i]));
    body' := body + text;
    binds' := binds + sent;
  }

  /** `serializeFilter(source:)`: the AND list is rendered first and the OR list after it. */
  method SerializeFilter(raw: Raw, filterAnd: seq<Raw>, filterOr: seq<Raw>, andSep: string, orSep: string)
    returns (r: Raw)
    ensures r == Filter(raw, filterAnd, filterOr, andSep, orSep)
  {
    r := SerializeItem(raw, filterAnd, filterOr, And, andSep);
    r := SerializeItem(r, filterAnd, filterOr, Or, orSep);
  }

  // ---- Alignment of placeholders and binds ----

  /**
   * The placeholders of the first `n` items are `$j+1, $j+2, ...`, one for
   * each bind those items send.
   */
  lemma {:induction false} BodyPlaceholders(fs: seq<Raw>, conj: string, wrapIn: bool, n: nat, j: nat)
    requires n <= |fs|
    ensures Placeholders(BodyPieces(fs, conj, wrapIn, n, j)) == Range(j + 1, |ListBinds(fs, n)|)
  {
    if n > 0 {
      BodyPlaceholders(fs, conj, wrapIn, n - 1, j);
      ListBindsLength(fs, n);
      StepPlaceholders(BodyPieces(fs, conj, wrapIn, n - 1, j), ItemShape(fs[n - 1], conj, wrapIn, false),
                       Offset(fs, n - 1, j), j + 1, |ListBinds(fs, n - 1)|, |ListBinds(fs, n)|);
    }
  }

  /**
   * Pieces with the placeholders `$from, ..., $from+a-1`, followed by a
   * shape numbered on from there, carry `total` consecutive placeholders.
   */
  lemma StepPlaceholders(prev: seq<Piece>, s: Shape, k: nat, from: nat, a: nat, total: nat)
    requires Placeholders(prev) == Range(from, a)
    requires k + 1 == from + a
    requires total == a + s.count
    ensures Placeholders(prev + ShapePieces(s, k)) == Range(from, total)
  {
    ShapePlaceholders(s, k);
    PlaceholdersAppend(prev, ShapePieces(s, k));
    RangeJoin(from, a, s.count, k + 1, total);
  }

  /** Item `n - 1` adds its own binds to the count of those sent before it. */
  lemma ListBindsLength(fs: seq<Raw>, n: nat)
    requires 0 < n <= |fs|
    ensures |ListBinds(fs, n)| == |ListBinds(fs, n - 1)| + |ItemBinds(fs[n - 1])|
  {
  }

  /** A whole list's placeholders are numbered on from `$j`, one per bind it sends. */
  lemma ListRendering(fs: seq<Raw>, conj: string, wrapIn: bool, j: nat)
    requires |fs| > 0
    ensures Placeholders(ListPieces(fs, conj, wrapIn, j)) == Range(j + 1, |ListBinds(fs, |fs|)|)
  {
    var n := |fs|;
    BodyPlaceholders(fs, conj, wrapIn, n - 1, j);
    ListBindsLength(fs, n);
    StepPlaceholders(BodyPieces(fs, conj, wrapIn, n - 1, j), ItemShape(fs[n - 1], conj, wrapIn, true),
                     Offset(fs, n - 1, j), j + 1, |ListBinds(fs, n - 1)|, |ListBinds(fs, n)|);
  }

  /** What `serializeItem` appends to the incoming text, as pieces. */
  function ClausePieces(raw: Raw, filterAnd: seq<Raw>, filterOr: seq<Raw>, cond: Condition, conj: string): seq<Piece> {
    var fs := Selected(cond, filterAnd, filterOr);
    if |fs| == 0 then []
    else [Text(Opening(cond, filterAnd))] + ListPieces(fs, conj, true, |raw.binds|) + [Text(Closing(cond, filterAnd))]
  }

  /**
   * Alignment for one list: `serializeItem` extends its input by the pieces
   * of the selected list and by the binds that list sends.
   */
  lemma ClauseAligned(raw: Raw, filterAnd: seq<Raw>, filterOr: seq<Raw>, cond: Condition, conj: string)
    ensures Extends(raw, Clause(raw, filterAnd, filterOr, cond, conj),
                    ClausePieces(raw, filterAnd, filterOr, cond, conj), Sent(Selected(cond, filterAnd, filterOr)))
  {
    var fs := Selected(cond, filterAnd, filterOr);
    if |fs| == 0 {
      ExtendsNothing(raw);
    } else {
      ListRendering(fs, conj, true, |raw.binds|);
      ExtendsWrapped(raw, Clause(raw, filterAnd, filterOr, cond, conj),
                     Opening(cond, filterAnd), ListPieces(fs, conj, true, |raw.binds|), Closing(cond, filterAnd), Sent(fs));
    }
  }

  /** With nothing selected, `serializeItem` returns its input unchanged: no space, no ` AND (`. */
  lemma ClauseEmpty(raw: Raw, filterAnd: seq<Raw>, filterOr: seq<Raw>, cond: Condition, conj: string)
    requires |Selected(cond, filterAnd, filterOr)| == 0
    ensures Clause(raw, filterAnd, filterOr, cond, conj) == raw
  {
  }

  /** The pieces `serializeFilter` appends: those of the AND list, then those of the OR list. */
  function FilterPieces(raw: Raw, filterAnd: seq<Raw>, filterOr: seq<Raw>, andSep: string, orSep: string): seq<Piece> {
    ClausePieces(raw, filterAnd, filterOr, And, andSep)
    + ClausePieces(Clause(raw, filterAnd, filterOr, And, andSep), filterAnd, filterOr, Or, orSep)
  }

  /**
   * Alignment for `serializeFilter`: the input is extended by the pieces of
   * the AND list and then of the OR list, and by the binds the AND list
   * sends followed by those the OR list sends.
   */
  lemma FilterAligned(raw: Raw, filterAnd: seq<Raw>, filterOr: seq<Raw>, andSep: string, orSep: string)
    ensures Extends(raw, Filter(raw, filterAnd, filterOr, andSep, orSep),
                    FilterPieces(raw, filterAnd, filterOr, andSep, orSep), Sent(filterAnd) + Sent(filterOr))
  {
    var mid := Clause(raw, filterAnd, filterOr, And, andSep);
    ClauseAligned(raw, filterAnd, filterOr, And, andSep);
    ClauseAligned(mid, filterAnd, filterOr, Or, orSep);
    ExtendsChain(raw, mid, Filter(raw, filterAnd, filterOr, andSep, orSep),
                 ClausePieces(raw, filterAnd, filterOr, And, andSep), ClausePieces(mid, filterAnd, filterOr, Or, orSep),
                 Sent(filterAnd), Sent(filterOr));
  }

  /**
   * The form of each list's rendering: the AND list after a space; the OR
   * list after a space when the AND list is empty, and otherwise wrapped in
   * ` AND (...)`.
   */
  lemma ClauseForm(raw: Raw, filterAnd: seq<Raw>, filterOr: seq<Raw>, cond: Condition, conj: string)
    requires |Selected(cond, filterAnd, filterOr)| > 0
    ensures cond == And || |filterAnd| == 0 ==>
      Clause(raw, filterAnd, filterOr, cond, conj).sql
        == raw.sql + (" " + ListText(Selected(cond, filterAnd, filterOr), conj, true, |raw.binds|))
    ensures cond == Or && |filterAnd| > 0 ==>
      Clause(raw, filterAnd, filterOr, cond, conj).sql
        == raw.sql + (" AND (" + ListText(filterOr, conj, true, |raw.binds|) + ")")
  {
    var lt := ListText(Selected(cond, filterAnd, filterOr), conj, true, |raw.binds|);
    if cond == And || |filterAnd| == 0 {
      AppendEmpty(" " + lt);
    } else {
      assert " " + "AND (" + lt + ")" == " AND (" + lt + ")";
    }
  }

  // ---- What each item looks like ----

  /** An item whose first bind is a quoted literal is written inline. */
  predicate Inlined(f: Raw) {
    |f.binds| > 0 && IsQuotedLiteral(f.binds[0])
  }

  /**
   * The separator: a non-final item is its final rendering followed by the
   * conjunction, or by ", " when it is inlined; the final item carries none.
   */
  lemma ItemSeparator(f: Raw, conj: string, wrapIn: bool, k: nat)
    ensures ShapeText(ItemShape(f, conj, wrapIn, false), k)
         == ShapeText(ItemShape(f, conj, wrapIn, true), k) + (if Inlined(f) then ", " else conj)
  {
    ItemTails(f, conj, wrapIn);
    ShapeSeparator(ItemShape(f, conj, wrapIn, false), ItemShape(f, conj, wrapIn, true), k, if Inlined(f) then ", " else conj);
  }

  /**
   * Where the separator goes: after the placeholders of an item that has
   * some, after the whole text of one that has none.
   */
  lemma ItemTails(f: Raw, conj: string, wrapIn: bool)
    ensures |ItemBinds(f)| > 0 ==>
      ItemPre(f, conj, wrapIn, false) == ItemPre(f, conj, wrapIn, true) && ItemPost(f, conj, wrapIn, false) == ItemPost(f, conj, wrapIn, true) + conj
    ensures |ItemBinds(f)| == 0 ==>
      ItemPre(f, conj, wrapIn, false) == ItemPre(f, conj, wrapIn, true) + (if Inlined(f) then ", " else conj)
      && ItemPost(f, conj, wrapIn, false) == "" && ItemPost(f, conj, wrapIn, true) == ""
  {
    if |ItemBinds(f)| > 0 {
      if |f.binds| == 1 && !WrapsIn(f, wrapIn) {
        AppendEmpty(conj);
      } else {
        AppendEmpty(")");
      }
    } else if |f.binds| > 0 {
      AppendEmpty(f.sql);
    }
  }

  /** A separator after a shape's text is a separator at the end of its text after, or before when it has no placeholders. */
  lemma ShapeSeparator(s: Shape, t: Shape, k: nat, sep: string)
    requires s.count == t.count
    requires s.count > 0 ==> s.pre == t.pre && s.post == t.post + sep
    requires s.count == 0 ==> s.pre == t.pre + sep && s.post == "" && t.post == ""
    ensures ShapeText(s, k) == ShapeText(t, k) + sep
  {
    ShapeForm(s, k);
    ShapeForm(t, k);
    if s.count > 0 {
      var ps := CommaText(k + 1, s.count - 1, None) + PlaceholderText(k + s.count, None);
      Assoc(ps, t.post, sep);
      Assoc(t.pre, ps + t.post, sep);
    } else {
      AppendEmpty(t.pre + sep);
      AppendEmpty(t.pre);
    }
  }

  /**
   * A single bind that is not a quoted literal becomes one placeholder,
   * `$k+1`, parenthesised after text ending in " IN "; the bind is sent.
   */
  lemma SingleBindItem(f: Raw, conj: string, wrapIn: bool, k: nat)
    requires |f.binds| == 1 && !IsQuotedLiteral(f.binds[0])
    ensures ItemBinds(f) == f.binds
    ensures ShapeText(ItemShape(f, conj, wrapIn, true), k)
         == f.sql + (if WrapsIn(f, wrapIn) then "(" + PlaceholderText(k + 1, None) + ")" else PlaceholderText(k + 1, None))
  {
    ShapeForm(ItemShape(f, conj, wrapIn, true), k);
    AppendEmpty(PlaceholderText(k + 1, None));
    if WrapsIn(f, wrapIn) {
      Assoc("(", PlaceholderText(k + 1, None), ")");
      Assoc(f.sql, "(", PlaceholderText(k + 1, None) + ")");
    }
  }

  /**
   * Several binds, the first not a quoted literal: a parenthesised list of
   * the consecutive placeholders `$k+1, ..., $k+n`; all binds are sent.
   */
  lemma ListItem(f: Raw, conj: string, wrapIn: bool, k: nat)
    requires |f.binds| >= 2 && !IsQuotedLiteral(f.binds[0])
    ensures ItemBinds(f) == f.binds
    ensures ShapeText(ItemShape(f, conj, wrapIn, true), k)
         == f.sql + "(" + (Flatten(ParamList(k + 1, |f.binds|, None)) + ")")
    ensures Placeholders(ParamList(k + 1, |f.binds|, None)) == Range(k + 1, |f.binds|)
  {
    ShapeForm(ItemShape(f, conj, wrapIn, true), k);
    ParamListText(k + 1, |f.binds|, None);
    ParamListPlaceholders(k + 1, |f.binds|, None);
  }

  /** A quoted literal first bind: the values are written inline and no bind is sent. */
  lemma InlinedItem(f: Raw, conj: string, wrapIn: bool, isLast: bool, k: nat)
    requires Inlined(f)
    ensures ItemBinds(f) == []
    ensures ItemShape(f, conj, wrapIn, isLast).count == 0
    ensures |f.binds| == 1 ==>
      ShapeText(ItemShape(f, conj, wrapIn, true), k) == f.sql + (if WrapsIn(f, wrapIn) then "(" + f.binds[0].s + ")" else f.binds[0].s)
    ensures |f.binds| >= 2 ==>
      ShapeText(ItemShape(f, conj, wrapIn, true), k) == f.sql + "(" + Join(StrValues(f.binds), ", ") + ")"
  {
    ShapeForm(ItemShape(f, conj, wrapIn, isLast), k);
    ShapeForm(ItemShape(f, conj, wrapIn, true), k);
    if |f.binds| == 1 && WrapsIn(f, wrapIn) {
      AppendEmpty(f.sql + "(" + f.binds[0].s + ")");
      Assoc(f.sql, "(" + f.binds[0].s, ")");
      Assoc(f.sql, "(", f.binds[0].s);
    } else if |f.binds| == 1 {
      AppendEmpty(f.sql + f.binds[0].s);
    } else {
      AppendEmpty(f.sql + "(" + Join(StrValues(f.binds), ", ") + ")");
    }
  }

  /** A bind-less item is its text alone, followed by the conjunction unless it is last. */
  lemma BindlessItem(f: Raw, conj: string, wrapIn: bool, isLast: bool, k: nat)
    requires |f.binds| == 0
    ensures ItemBinds(f) == []
    ensures ShapeText(ItemShape(f, conj, wrapIn, isLast), k) == f.sql + (if isLast then "" else conj)
  {
    ShapeForm(ItemShape(f, conj, wrapIn, isLast), k);
    ShapeForm(ItemShape(f, conj, wrapIn, true), k);
  }
}
