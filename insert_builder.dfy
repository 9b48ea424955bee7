/**
 * The insert builder (`DBInsertBuilder.swift` and its extension): a class
 * whose chaining methods append to or overwrite its fields, and whose
 * `serialize()` renders them as `InsertStatement.InsertSql` of the
 * snapshot `State()`, into the target table `Target()`.
 *
 * The model type `T` of `DBInsertBuilder<T>` is the constant `model`; the
 * database handle is left out.  `quote` stands for the `col:`
 * interpolation.  The ON CONFLICT fields the extension writes
 * (`onConflict`, `setsForUpdate`, `isDoNothing`) are fields here, kept in
 * the snapshot; `serialize()` does not read them.
 */
module InsertBuilders {
  import opened Fragments
  import Items
  import Models
  import Conditions
  import opened InsertStatement

  class InsertBuilder {
    const quote: string -> string
    const space: Option<string>
    const model: Models.TableModel
    const section: string
    const schema: string := model.schema + section
    const alias: string := model.alias

    var with: Option<Raw>
    var inserts: seq<seq<Bind>>
    var columns: seq<string>
    var returning: seq<string>
    var onConflict: seq<string>
    var setsForUpdate: seq<Raw>
    var isDoNothing: bool

    /** The builder's fields. */
    function State(): InsertState
      reads this
    {
      InsertState(with, inserts, columns, returning, onConflict, setsForUpdate, isDoNothing)
    }

    /** The table inserted into: the model's table in this section, in `space`, under the model's alias. */
    function Target(): string {
      Items.TableSql(Items.ItemTable(space, schema, Some(alias)))
    }

    /** `init(space:section:on:)`: no WITH fragment, no rows, no columns. */
    constructor(quote: string -> string, space: Option<string>, model: Models.TableModel, section: string)
      ensures this.quote == quote && this.space == space && this.model == model && this.section == section
      ensures schema == model.schema + section && alias == model.alias
      ensures State() == InsertState(None, [], [], [], [], [], false)
    {
      this.quote := quote;
      this.space := space;
      this.model := model;
      this.section := section;
      with, inserts, columns, returning := None, [], [], [];
      onConflict, setsForUpdate, isDoNothing := [], [], false;
    }

    /** `with(_:)`: the WITH fragment, replacing any earlier one. */
    method With(sql: Raw)
      modifies this
      ensures State() == old(State()).(with := Some(sql))
    {
      with := Some(sql);
    }

    /** `fields(_:)`: more columns, each qualified by the builder's alias. */
    method Fields(cols: seq<Column>)
      modifies this
      ensures State() == old(State()).(columns := old(columns) + Conditions.Refs(quote, Conditions.Qualified(alias), cols))
    {
      columns := columns + Conditions.Refs(quote, Conditions.Qualified(alias), cols);
    }

    /** `values(_:)`: one more row. */
    method Values(vs: seq<Bind>)
      modifies this
      ensures State() == old(State()).(inserts := old(inserts) + [vs])
    {
      inserts := inserts + [vs];
    }

    /** `returning(_:)`: the columns returned, qualified by the builder's alias; replaces any earlier list. */
    method Returning(cols: seq<Column>)
      modifies this
      ensures State() == old(State()).(returning := Conditions.Refs(quote, Conditions.Qualified(alias), cols))
    {
      returning := Conditions.Refs(quote, Conditions.Qualified(alias), cols);
    }

    /** `resetValues()`: no rows, everything else kept. */
    method ResetValues()
      modifies this
      ensures State() == old(State()).(inserts := [])
    {
      inserts := [];
    }

    /** `onConflict(_:)`: the conflict columns, qualified by the builder's alias; replaces any earlier list. */
    method OnConflict(cols: seq<Column>)
      modifies this
      ensures State() == old(State()).(onConflict := Conditions.Refs(quote, Conditions.Qualified(alias), cols))
    {
      onConflict := Conditions.Refs(quote, Conditions.Qualified(alias), cols);
    }

    /**
     * `set(_:)`, `set(_:to:)`, `set(_:plus:)`, `set(_:minus:)` and
     * `doUpdateSet(_:)`: one more assignment for the conflict update, its
     * column unqualified.
     */
    method Set(a: Conditions.Assignment)
      modifies this
      ensures State() == old(State()).(setsForUpdate := old(setsForUpdate) + [Conditions.SetFragment(quote, a)])
    {
      setsForUpdate := setsForUpdate + [Conditions.SetFragment(quote, a)];
    }

    /** `doNothing()`: the conflict is to be ignored. */
    method DoNothing()
      modifies this
      ensures State() == old(State()).(isDoNothing := true)
    {
      isDoNothing := true;
    }

    /** `serialize()`: the statement for the current fields; nothing changes. */
    method Serialize() returns (r: Raw)
      ensures r == InsertSql(Target(), State())
    {
      r := WriteInsert(Target(), State());
    }
  }
}
