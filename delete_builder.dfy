/**
 * The delete builder (`DBDeleteBuilder.swift` and its extensions): a class
 * whose chaining methods append to or overwrite its fields, and whose
 * `serialize(end:)` renders them as `DeleteStatement.DeleteSql` of the
 * snapshot `State()`.
 *
 * The model type `T` of `DBDeleteBuilder<T>` is the constant `model`; the
 * database handle is left out.  `quote` stands for the `col:`/`str:`
 * interpolations, and `space` for the schema namespace `using` reads,
 * which the class does not declare.
 */
module DeleteBuilders {
  import opened Fragments
  import Items
  import Models
  import Conditions
  import opened DeleteStatement

  class DeleteBuilder {
    const quote: string -> string
    const space: Option<string>
    const model: Models.TableModel
    const section: string
    const schema: string := model.schema + section
    const alias: string := model.alias

    var with: seq<Raw>
    var from: string
    var using: seq<string>
    var cursor: Option<string>
    var filterAnd: seq<Raw>
    var filterOr: seq<Raw>
    var returning: seq<string>

    /** The fields `serialize(end:)` reads. */
    function State(): DeleteState
      reads this
    {
      DeleteState(with, from, using, cursor, filterAnd, filterOr, returning)
    }

    /** `init(section:on:)`: the model's table in this section, under the model's alias, is the table deleted from. */
    constructor(quote: string -> string, space: Option<string>, model: Models.TableModel, section: string)
      ensures this.quote == quote && this.space == space && this.model == model && this.section == section
      ensures schema == model.schema + section && alias == model.alias
      ensures State() == DeleteState([], Models.ModelTableSql(quote, Models.ModelTable(model.schema + section, Some(model.alias))),
                                     [], None, [], [], [])
    {
      this.quote := quote;
      this.space := space;
      this.model := model;
      this.section := section;
      with, using, cursor, filterAnd, filterOr, returning := [], [], None, [], [], [];
      from := Models.ModelTableSql(quote, Models.ModelTable(model.schema + section, Some(model.alias)));
    }

    /**
     * `with(_:)`: the WITH fragment.  As written the method assigns one
     * fragment to the list field; it is modelled as making it the only one.
     */
    method With(sql: Raw)
      modifies this
      ensures State() == old(State()).(with := [sql])
    {
      with := [sql];
    }

    /** `using(_:_:)`: one more USING table, the model's table in this section under `tableAlias ?? model.alias`. */
    method Using(m: Models.TableModel, tableAlias: Option<string>)
      modifies this
      ensures State() == old(State()).(using := old(using)
        + [Items.TableSql(Items.ItemTable(space, m.schema + section, Some(OrElse(tableAlias, m.alias))))])
    {
      var table := Items.ItemTable(space, m.schema + section, Some(OrElse(tableAlias, m.alias)));
      using := using + [Items.TableSql(table)];
    }

    /** `cursor(_:)`: the cursor the statement deletes at. */
    method Cursor(name: string)
      modifies this
      ensures State() == old(State()).(cursor := Some(name))
    {
      cursor := Some(name);
    }

    /** `returning(_:as:)`: the columns returned, qualified by `tableAlias ?? alias`; replaces any earlier list. */
    method Returning(cols: seq<Column>, tableAlias: Option<string>)
      modifies this
      ensures State() == old(State()).(returning
        := Conditions.Refs(quote, Conditions.Qualified(OrElse(tableAlias, alias)), cols))
    {
      returning := Conditions.Refs(quote, Conditions.Qualified(OrElse(tableAlias, alias)), cols);
    }

    /**
     * `filter` (`isOr` false) and `orFilter` (`isOr` true): one more condition
     * on the AND or the OR list, every column qualified by the builder's
     * alias.  There is no list-valued custom overload.
     */
    method Filter(c: Conditions.Condition, isOr: bool)
      requires !c.CustomList?
      modifies this
      ensures !isOr ==> State() == old(State()).(filterAnd := old(filterAnd)
        + [Conditions.Fragment(quote, Conditions.Qualified(alias), Conditions.Qualified(alias), c)])
      ensures isOr ==> State() == old(State()).(filterOr := old(filterOr)
        + [Conditions.Fragment(quote, Conditions.Qualified(alias), Conditions.Qualified(alias), c)])
    {
      var f := Conditions.Fragment(quote, Conditions.Qualified(alias), Conditions.Qualified(alias), c);
      if isOr {
        filterOr := filterOr + [f];
      } else {
        filterAnd := filterAnd + [f];
      }
    }

    /** `serialize(end:)`: the statement for the current fields; nothing changes. */
    method Serialize(andSep: string, orSep: string, end: string) returns (r: Raw)
      ensures r == DeleteSql(State(), andSep, orSep, end)
    {
      r := WriteDelete(State(), andSep, orSep, end);
    }
  }
}
