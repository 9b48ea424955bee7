/**
 * The select builder (`DBSelectBuilder.swift` and its extensions): a class
 * whose chaining methods append to or overwrite its fields, and whose
 * `serialize()` renders them as `SelectStatement.SelectSql` of the snapshot
 * `State()`.
 *
 * The model type `T` of `DBSelectBuilder<T>` is the constant `model`; the
 * database handle is left out.  `quote` stands for the `col:`/`str:`
 * interpolations, and `space` for the schema namespace the join clause reads.
 */
module SelectBuilders {
  import opened Fragments
  import Items
  import Models
  import Conditions
  import Joins
  import Pages
  import opened SelectStatement
  import Clauses

  /** `tableAlias ?? column.table`: the given alias when there is one, else the column's own table. */
  function Preferred(tableAlias: Option<string>): Conditions.Qualifier {
    if tableAlias.Some? then Conditions.Qualified(tableAlias.value) else Conditions.OwnTable
  }

  /** Each rendered column followed by the sort direction, in order. */
  function Sorted(quote: string -> string, q: Conditions.Qualifier, cols: seq<Column>, direct: Items.Direction): seq<string> {
    seq(|cols|, i requires 0 <= i < |cols| => Conditions.ColumnRef(quote, q, cols[i]) + Items.DirectionSql(direct))
  }

  /** Texts as fragments without binds. */
  function Bare(ss: seq<string>): seq<Raw> {
    seq(|ss|, i requires 0 <= i < |ss| => DBRaw(ss[i], []))
  }

  /**
   * The columns `aggreg` sets: the given columns, or every column of the
   * aliased table (`tableAlias ?? alias`) when none is given.  No bind.
   */
  function AggregColumns(quote: string -> string, alias: string, cols: seq<Column>, tableAlias: Option<string>): (r: seq<Raw>)
    ensures |cols| > 0 ==> |r| == |cols|
    ensures |cols| == 0 ==> r == [DBRaw(quote(OrElse(tableAlias, alias)) + ".*", [])]
    ensures AllBinds(r) == []
  {
    if |cols| > 0 then
      var r := Bare(Conditions.Refs(quote, Preferred(tableAlias), cols));
      NoBinds(r);
      r
    else [DBRaw(quote(OrElse(tableAlias, alias)) + ".*", [])]
  }

  lemma {:induction false} NoBinds(fs: seq<Raw>)
    requires forall i :: 0 <= i < |fs| ==> fs[i].binds == []
    ensures AllBinds(fs) == []
  {
    if fs != [] {
      NoBinds(fs[..|fs| - 1]);
    }
  }

  /** `field(_:as:)` with a custom text: the text, then " AS " and the quoted alias when given. */
  function FieldText(quote: string -> string, field: string, columnAlias: Option<string>): (r: string)
    ensures field <= r
    ensures columnAlias.None? ==> r == field
    ensures columnAlias.Some? ==> r[|field|..] == " AS " + quote(columnAlias.value)
  {
    if columnAlias.Some? then field + " AS " + quote(columnAlias.value) else field
  }

  class SelectBuilder {
    const quote: string -> string
    const space: Option<string>
    const model: Models.TableModel
    const section: string
    const schema: string := model.schema + section
    const alias: string := model.alias

    var with: seq<Raw>
    var columns: seq<Raw>
    var from: seq<string>
    var filterAnd: seq<Raw>
    var filterOr: seq<Raw>
    var joins: seq<Joins.Join>
    var group: seq<string>
    var having: seq<string>
    var order: seq<string>
    var limit: Option<int>
    var offset: Option<int>
    var distinct: Option<seq<string>>
    var aggregate: Option<Aggregate>
    var isolation: Option<Isolation>
    var isWait: bool

    /** The fields `serialize()` reads. */
    function State(): SelectState
      reads this
    {
      SelectState(with, columns, from, filterAnd, filterOr, joins, group, having, order,
                  limit, offset, distinct, aggregate, isolation, isWait)
    }

    /** `init(section:on:)`: the model's table, under the model's alias, is the only FROM item. */
    constructor(quote: string -> string, space: Option<string>, model: Models.TableModel, section: string)
      ensures this.quote == quote && this.space == space && this.model == model && this.section == section
      ensures schema == model.schema + section && alias == model.alias
      ensures State() == SelectState(
        [], [], [Models.ModelTableSql(quote, Models.ModelTable(model.schema + section, Some(model.alias)))],
        [], [], [], [], [], [], None, None, None, None, None, false)
    {
      this.quote := quote;
      this.space := space;
      this.model := model;
      this.section := section;
      with, columns, filterAnd, filterOr, joins := [], [], [], [], [];
      group, having, order := [], [], [];
      limit, offset, distinct, aggregate, isolation, isWait := None, None, None, None, None, false;
      from := [Models.ModelTableSql(quote, Models.ModelTable(model.schema + section, Some(model.alias)))];
    }

    /**
     * A builder on the model and section holding the snapshot: the builder
     * `copy()` makes by creating one and then assigning its fields.
     */
    constructor Of(quote: string -> string, space: Option<string>, model: Models.TableModel, section: string, s: SelectState)
      ensures this.quote == quote && this.space == space && this.model == model && this.section == section
      ensures State() == s
    {
      this.quote := quote;
      this.space := space;
      this.model := model;
      this.section := section;
      with, columns, from, filterAnd, filterOr, joins := s.with, s.columns, s.from, s.filterAnd, s.filterOr, s.joins;
      group, having, order, limit, offset := s.group, s.having, s.order, s.limit, s.offset;
      distinct, aggregate, isolation, isWait := s.distinct, s.aggregate, s.isolation, s.isWait;
    }

    /** `copy()`: a new builder on the same model and section with the same fields, except the row lock. */
    method Copy() returns (c: SelectBuilder)
      ensures fresh(c)
      ensures c.quote == quote && c.space == space && c.model == model && c.section == section
      ensures c.State() == State().(isolation := None, isWait := false)
    {
      c := new SelectBuilder.Of(quote, space, model, section, State().(isolation := None, isWait := false));
    }

    /** `with(_:)`: one more WITH fragment. */
    method With(sql: Raw)
      modifies this
      ensures State() == old(State()).(with := old(with) + [sql])
    {
      with := with + [sql];
    }

    /** `from(_:alias:)`: one more FROM table, the model's table in this section under `tableAlias ?? model.alias`. */
    method From(m: Models.TableModel, tableAlias: Option<string>)
      modifies this
      ensures State() == old(State()).(from := old(from)
        + [Models.ModelTableSql(quote, Models.ModelTable(m.schema + section, Some(OrElse(tableAlias, m.alias))))])
    {
      var a := if tableAlias.Some? then tableAlias.value else m.alias;
      from := from + [Models.ModelTableSql(quote, Models.ModelTable(m.schema + section, Some(a)))];
    }

    /** `field(_ column:as:alias:)`: one more column, qualified by `tableAlias ?? column.table`, with its alias. */
    method Field(column: Column, columnAlias: Option<string>, tableAlias: Option<string>)
      modifies this
      ensures State() == old(State()).(columns := old(columns)
        + [DBRaw(Models.ModelColumnSql(quote, Models.ModelColumn(Conditions.TableOf(Preferred(tableAlias), column), column.key, columnAlias)), [])])
    {
      var table := if tableAlias.Some? then tableAlias else column.table;
      columns := columns + [DBRaw(Models.ModelColumnSql(quote, Models.ModelColumn(table, column.key, columnAlias)), [])];
    }

    /** `field(_ field: String, as:)`: one more custom column. */
    method FieldCustom(field: string, columnAlias: Option<string>)
      modifies this
      ensures State() == old(State()).(columns := old(columns) + [DBRaw(FieldText(quote, field, columnAlias), [])])
    {
      var column := field;
      if columnAlias.Some? {
        column := column + " AS " + quote(columnAlias.value);
      }
      columns := columns + [DBRaw(column, [])];
    }

    /** `field(_ sql: DBRaw)`: one more column fragment, binds included. */
    method FieldRaw(sql: Raw)
      modifies this
      ensures State() == old(State()).(columns := old(columns) + [sql])
    {
      columns := columns + [sql];
    }

    /** `fields()`: every column of the base table, replacing the list. */
    method AllFields()
      modifies this
      ensures State() == old(State()).(columns := [DBRaw(quote(alias) + ".*", [])])
    {
      columns := [DBRaw(quote(alias) + ".*", [])];
    }

    /** `fields(_:alias:)`: the columns appended in order. */
    method Fields(cols: seq<Column>, tableAlias: Option<string>)
      modifies this
      ensures State() == old(State()).(columns := old(columns) + Bare(Conditions.Refs(quote, Preferred(tableAlias), cols)))
    {
      columns := columns + Bare(Conditions.Refs(quote, Preferred(tableAlias), cols));
    }

    /** `groupBy(_:alias:)`. */
    method GroupBy(cols: seq<Column>, tableAlias: Option<string>)
      modifies this
      ensures State() == old(State()).(group := old(group) + Conditions.Refs(quote, Preferred(tableAlias), cols))
    {
      group := group + Conditions.Refs(quote, Preferred(tableAlias), cols);
    }

    /** `sort(_:alias:direct:)`: every column carries the same direction. */
    method Sort(cols: seq<Column>, tableAlias: Option<string>, direct: Items.Direction)
      modifies this
      ensures State() == old(State()).(order := old(order) + Sorted(quote, Preferred(tableAlias), cols, direct))
    {
      order := order + Sorted(quote, Preferred(tableAlias), cols, direct);
    }

    /** `distinct(_:as:)`: the DISTINCT ON list, replacing any earlier one. */
    method Distinct(cols: seq<Column>, tableAlias: Option<string>)
      modifies this
      ensures State() == old(State()).(distinct := Some(Conditions.Refs(quote, Preferred(tableAlias), cols)))
    {
      distinct := Some(Conditions.Refs(quote, Preferred(tableAlias), cols));
    }

    /** `limit(_:)`: the last call wins. */
    method Limit(max: int)
      modifies this
      ensures State() == old(State()).(limit := Some(max))
    {
      limit := Some(max);
    }

    /** `offset(_:)`: the last call wins. */
    method Offset(n: int)
      modifies this
      ensures State() == old(State()).(offset := Some(n))
    {
      offset := Some(n);
    }

    /** `for(_:)`. */
    method For(iso: Isolation)
      modifies this
      ensures State() == old(State()).(isolation := Some(iso))
    {
      isolation := Some(iso);
    }

    /** `noWait()`. */
    method NoWait()
      modifies this
      ensures State() == old(State()).(isWait := true)
    {
      isWait := true;
    }

    /**
     * `aggreg`: the column list replaced by the aggregated columns, and the
     * limit cleared by the `first(limit: nil)` that runs the query; the
     * query itself is left out.
     */
    method Aggreg(cols: seq<Column>, tableAlias: Option<string>)
      modifies this
      ensures State() == old(State()).(columns := AggregColumns(quote, alias, cols, tableAlias), limit := None)
    {
      limit := None;
      if |cols| > 0 {
        columns := Bare(Conditions.Refs(quote, Preferred(tableAlias), cols));
      } else {
        var table := if tableAlias.Some? then tableAlias.value else alias;
        columns := [DBRaw(quote(table) + ".*", [])];
      }
    }

    /**
     * `avg`/`count`/`maximum`/`minimum`/`sum` with `aggreg`: the aggregate is
     * set, the column list is replaced and the limit is cleared (`count`
     * clears it itself, and `aggreg` again for every aggregate).
     * The first row of the resulting query is the parameter `row` (the query
     * is run outside the model); no row gives 0.
     */
    method Aggregated(kind: Aggregate, cols: seq<Column>, tableAlias: Option<string>, row: Option<int>) returns (n: int)
      modifies this
      ensures State() == old(State()).(
        aggregate := Some(kind),
        limit := None,
        columns := AggregColumns(quote, alias, cols, tableAlias))
      ensures n == (if row.Some? then row.value else 0)
    {
      aggregate := Some(kind);
      if kind == Count {
        limit := None;
      }
      Aggreg(cols, tableAlias);
      n := if row.Some? then row.value else 0;
    }

    /** `join(_:_:as:)`: one more join, on the model's table in this section under `tableAlias ?? model.alias`. */
    method AddJoin(m: Models.TableModel, joinMethod: Items.JoinMethod, tableAlias: Option<string>)
      modifies this
      ensures State() == old(State()).(joins := old(joins) + [Joins.NewJoin(OrElse(tableAlias, m.alias),
        Items.TableSql(Items.ItemTable(space, m.schema + section, Some(OrElse(tableAlias, m.alias)))), joinMethod)])
    {
      var a := if tableAlias.Some? then tableAlias.value else m.alias;
      var joinTable := Items.TableSql(Items.ItemTable(space, m.schema + section, Some(a)));
      joins := joins + [Joins.NewJoin(a, joinTable, joinMethod)];
    }

    /**
     * `on`/`orOn` (the four overloads of each): the condition, qualified by
     * the last join's alias, is appended to that join's AND or OR list.
     * Without a join the source stops with a fatal error, which is this
     * method's precondition; there is no list-valued custom overload.
     */
    method On(c: Conditions.Condition, rightAlias: string, isOr: bool)
      requires |joins| > 0 && !c.CustomList?
      modifies this
      ensures State() == old(State()).(joins := old(joins)[|old(joins)| - 1 :=
        Joins.WithCondition(old(joins)[|old(joins)| - 1],
          Joins.OnFragment(quote, old(joins)[|old(joins)| - 1], rightAlias, c), isOr)])
    {
      var last := |joins| - 1;
      var f := Joins.OnFragment(quote, joins[last], rightAlias, c);
      joins := joins[last := Joins.WithCondition(joins[last], f, isOr)];
    }

    /**
     * `filter`/`orFilter` (the four overloads of each): the condition, each
     * column qualified by its own table, is appended to the AND or OR list.
     */
    method Filter(c: Conditions.Condition, isOr: bool)
      requires !c.CustomList?
      modifies this
      ensures !isOr ==> State() == old(State()).(filterAnd := old(filterAnd)
        + [Conditions.Fragment(quote, Conditions.OwnTable, Conditions.OwnTable, c)])
      ensures isOr ==> State() == old(State()).(filterOr := old(filterOr)
        + [Conditions.Fragment(quote, Conditions.OwnTable, Conditions.OwnTable, c)])
    {
      var f := Conditions.Fragment(quote, Conditions.OwnTable, Conditions.OwnTable, c);
      if isOr {
        filterOr := filterOr + [f];
      } else {
        filterAnd := filterAnd + [f];
      }
    }

    /** `filter(_ sql: DBRaw)` / `orFilter(_ sql: DBRaw)`: a raw fragment appended as it is. */
    method FilterRaw(sql: Raw, isOr: bool)
      modifies this
      ensures !isOr ==> State() == old(State()).(filterAnd := old(filterAnd) + [sql])
      ensures isOr ==> State() == old(State()).(filterOr := old(filterOr) + [sql])
    {
      if isOr {
        filterOr := filterOr + [sql];
      } else {
        filterAnd := filterAnd + [sql];
      }
    }

    /** The count query of `paginate`: no ORDER BY, and only the inner joins. */
    method ForCount()
      modifies this
      ensures State() == old(State()).(order := [], joins := Joins.InnerJoins(old(joins)))
    {
      order := [];
      joins := Joins.InnerJoins(joins);
    }

    /** The page window of `paginate`: OFFSET and LIMIT of the request. */
    method Window(request: Pages.PageRequest)
      modifies this
      ensures State() == old(State()).(offset := Some(Pages.Offset(request)), limit := Some(request.per))
    {
      offset := Some(Pages.Offset(request));
      limit := Some(request.per);
    }

    /**
     * `paginate(page:per:decode:)`.  The request is clamped; the count query
     * is a copy without ORDER BY and with only the inner joins, on which
     * `count()` then sets the COUNT aggregate over `"alias".*` and clears the
     * limit; this builder gets the page's OFFSET and LIMIT.  The rows of this
     * builder's query and the first row of the count query are the
     * parameters `items` and `countRow` (both queries run outside the model),
     * and the page echoes the clamped request and the count.
     */
    method Paginate<U>(page: Option<int>, per: Option<int>, items: seq<U>, countRow: Option<int>)
      returns (p: Pages.Page<U>, count: SelectBuilder)
      modifies this
      ensures fresh(count)
      ensures count.alias == alias && count.section == section && count.quote == quote
      ensures count.State() == old(State()).(order := [], joins := Joins.InnerJoins(old(joins)),
                                            isolation := None, isWait := false,
                                            aggregate := Some(Count), limit := None,
                                            columns := [DBRaw(quote(alias) + ".*", [])])
      ensures State() == old(State()).(offset := Some(Pages.Offset(Pages.Clamp(page, per))),
                                       limit := Some(Pages.Clamp(page, per).per))
      ensures p.items == items
      ensures p.metadata == Pages.PageMetadata(Pages.Clamp(page, per).page, Pages.Clamp(page, per).per,
                                               if countRow.Some? then countRow.value else 0)
    {
      var request := Pages.Clamp(page, per);
      count := Copy();
      count.ForCount();
      Window(request);
      var total := count.Aggregated(Count, [], None, countRow);
      p := Pages.PageOf(items, request, total);
    }

    /** `serialize()`: the head, the joins in order, WHERE, then the closing clauses. */
    method Serialize(andSep: string, orSep: string) returns (r: Raw)
      ensures r == SelectSql(alias, andSep, orSep, State())
    {
      var s := State();
      var query := WriteHead(alias, s);
      query := WriteJoins(query, joins);
      query := Clauses.WriteWhere(query, filterAnd, filterOr, andSep, orSep);
      var sql := WriteTail(query.sql, s);
      r := Raw(sql, query.binds, None);
    }
  }
}
