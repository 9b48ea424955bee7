/**
 * The update builder (`DBUpdateBuilder.swift` and its extensions): a class
 * whose chaining methods append to or overwrite its fields, and whose
 * `serialize(end:)` renders them as `UpdateStatement.UpdateSql` of the
 * snapshot `State()`.
 *
 * The model type `T` of `DBUpdateBuilder<T>` is the constant `model`; the
 * database handle is left out.  `quote` stands for the `col:`/`str:`
 * interpolations.
 */
module UpdateBuilders {
  import opened Fragments
  import Models
  import Conditions
  import opened UpdateStatement

  class UpdateBuilder {
    const quote: string -> string
    const model: Models.TableModel
    const section: string
    const schema: string := model.schema + section
    const alias: string := model.alias

    var with: seq<Raw>
    var update: string
    var sets: seq<Raw>
    var from: seq<string>
    var cursor: Option<string>
    var filterAnd: seq<Raw>
    var filterOr: seq<Raw>
    var returning: seq<string>

    /** The fields `serialize(end:)` reads. */
    function State(): UpdateState
      reads this
    {
      UpdateState(with, update, sets, from, cursor, filterAnd, filterOr, returning)
    }

    /** `init(section:on:)`: the model's table in this section, without an alias, is the table updated. */
    constructor(quote: string -> string, model: Models.TableModel, section: string)
      ensures this.quote == quote && this.model == model && this.section == section
      ensures schema == model.schema + section && alias == model.alias
      ensures State() == UpdateState([], Models.ModelTableSql(quote, Models.ModelTable(model.schema + section, None)),
                                     [], [], None, [], [], [])
    {
      this.quote := quote;
      this.model := model;
      this.section := section;
      with, sets, from, cursor, filterAnd, filterOr, returning := [], [], [], None, [], [], [];
      update := "" + Models.ModelTableSql(quote, Models.ModelTable(model.schema + section, None));
    }

    /**
     * `with(_:)`: the WITH fragment.  As written the method assigns one
     * fragment to the list field; it is modelled as making it the only one.
     */
    method With(sql: Raw)
      modifies this
      ensures State() == old(State()).(with := [sql])
    {
      with := [sql];
    }

    /** `cursor(_:)`: the cursor the statement updates at. */
    method Cursor(name: string)
      modifies this
      ensures State() == old(State()).(cursor := Some(name))
    {
      cursor := Some(name);
    }

    /** `returning(_:)`: the columns returned, qualified by the builder's alias; replaces any earlier list. */
    method Returning(cols: seq<Column>)
      modifies this
      ensures State() == old(State()).(returning := Conditions.Refs(quote, Conditions.Qualified(alias), cols))
    {
      returning := Conditions.Refs(quote, Conditions.Qualified(alias), cols);
    }

    /** `set(_:as:)`, `set(_:to:as:)`, `set(_:plus:)`, `set(_:minus:)`: one more assignment. */
    method Set(a: Conditions.Assignment)
      modifies this
      ensures State() == old(State()).(sets := old(sets) + [Conditions.SetFragment(quote, a)])
    {
      sets := sets + [Conditions.SetFragment(quote, a)];
    }

    /**
     * `filter` (`isOr` false) and `orFilter` (`isOr` true): one more condition
     * on the AND or the OR list, its columns unqualified.
     */
    method Filter(c: Conditions.Condition, isOr: bool)
      modifies this
      ensures !isOr ==> State() == old(State()).(filterAnd := old(filterAnd)
        + [Conditions.Fragment(quote, Conditions.Unqualified, Conditions.Unqualified, c)])
      ensures isOr ==> State() == old(State()).(filterOr := old(filterOr)
        + [Conditions.Fragment(quote, Conditions.Unqualified, Conditions.Unqualified, c)])
    {
      var f := Conditions.Fragment(quote, Conditions.Unqualified, Conditions.Unqualified, c);
      if isOr {
        filterOr := filterOr + [f];
      } else {
        filterAnd := filterAnd + [f];
      }
    }

    /** `serialize(end:)`: the statement for the current fields; nothing changes. */
    method Serialize(andSep: string, orSep: string, end: string) returns (r: Raw)
      ensures r == UpdateSql(State(), andSep, orSep, end)
    {
      r := WriteUpdate(State(), andSep, orSep, end);
    }
  }
}
