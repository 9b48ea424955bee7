# db-query statement builders, modelled in Dafny

db-query is a Swift library that builds parameterised PostgreSQL statements
for Vapor applications. A builder object collects clauses through chaining
calls: `with`, `from`, `field`, `filter`/`orFilter`, `join`/`on`, `sort`,
`set`, `values`, `returning` and others. Its `serialize` then renders one SQL
string plus an ordered list of bind values. Placeholders `$1, $2, ...` in the
text are numbered to match the binds.

This project models the core of the library:

- `Fragments`: bind values, raw fragments (text, binds and an optional cast
  type) and the positional placeholders `$N`. Rendered text is described a
  second time as a sequence of pieces, in which every placeholder is
  `Param(index, cast)`. The predicate `Extends(raw, out, pieces, sent)` says
  that `out` is `raw` with the pieces' text and the binds `sent` appended,
  and that the placeholders among the pieces are `$m+1, ..., $m+k` for the
  `m` incoming and `k` appended binds. This is how placeholder/bind
  alignment is stated and proved for every serializer.
- `Operators`: the binary operators on columns (`==`, `~~`, `|=|`, ...) and
  `+` on raw fragments.
- `Items` and `Models`: the two generations of column and table renderers,
  the join methods and the sort directions, each with a parser that
  recovers what was rendered.
- `Conditions`: the fragment each `filter`/`orFilter`/`on` overload appends,
  and the fragment each `set` overload appends.
- `PredicateSerialize` and `SelectDeletePredicate`: the single-list filter
  protocol. Conjunctions and brackets are written into the list when a
  filter is added. The serializer rewrites " IN " before a single
  placeholder and writes casts.
- `FilterSerialize`: the two-list (AND/OR) serializer of the builders,
  where quoted literals are written inline. The same renderer, without
  parentheses after " IN ", writes an update's SET list.
- `Clauses`, `Joins`, `SelectStatement`, `UpdateStatement`,
  `DeleteStatement` and `InsertStatement`: each statement as a function of
  the builder's fields, a method that writes it step by step as
  `serialize` does, and lemmas about its shape, its binds and its
  alignment.
- `Pages`: the page arithmetic of `paginate`.
- `SelectBuilders`, `UpdateBuilders`, `DeleteBuilders` and
  `InsertBuilders`: the builder classes. Their fields are updated in place
  by the chaining methods. `Serialize` is the statement function applied
  to the snapshot `State()`.

The statements are modelled as the code writes them. Some consequences
that a caller may not expect:

- A select with a row lock writes "FOR" right after the preceding text,
  without a space.
- `copy()` does not copy the row lock or NOWAIT.
- An insert does not render the ON CONFLICT fields its clause methods set.
- Under a cursor, update and delete ignore their filters.

## Model

The functions that define each statement (`SelectStatement.SelectSql`,
`UpdateStatement.UpdateSql`, `DeleteStatement.DeleteSql`,
`InsertStatement.InsertSql`, `Joins.JoinSql`,
`PredicateSerialize.Serialized`) and the page arithmetic (`Pages.Offset`,
`Pages.PageCount`) have no rows of their own. The rows name the methods
proved equal to them and the lemmas that state their properties.

| member | source | states |
|---|---|---|
| Fragments.StrValues | Sources/DBQuery/DBFilterSerialize.swift:70 | the string values of a bind list, at most one per bind |
| Fragments.Sqls | Sources/DBQuery/Select/DBSelectBuilder.swift:76 | the texts of the fragments, one per fragment, in order |
| Fragments.NatToString | Sources/DBQuery/DBFilterSerialize.swift:60-64 | the decimal text of a placeholder number is non-empty and has no sign |
| Fragments.IntToString | Sources/DBQuery/Select/DBSelectBuilder.swift:133-138 | the decimal text of LIMIT/OFFSET starts with "-" exactly when the number is negative |
| Fragments.Range | Sources/DBQuery/DBFilterSerialize.swift:37 | the consecutive placeholder numbers `from, ..., from+n-1` |
| Fragments.ParamListPlaceholders | Sources/DBQuery/DBFilterSerialize.swift:75-81 | a comma list of placeholders names exactly the consecutive numbers `from .. from+n-1` |
| Fragments.ParamListText | Sources/DBQuery/DBFilterSerialize.swift:75-81 | the text of a placeholder list is the "$k, " part followed by the last placeholder |
| Fragments.WritePlaceholders | Sources/DBQuery/Protocols/DBFilterSerialize.swift:34-40 | the inner placeholder loop advances the counter by `n` and writes `$j+1, ..., $j+n`, each with its cast |
| Fragments.ExtendsChain | Sources/DBQuery/Select/DBSelectBuilder.swift:116-122 | two aligned extensions, one after the other, are one aligned extension |
| Fragments.ExtendsWrapped | Sources/DBQuery/DBFilterSerialize.swift:24-32 | aligned pieces with text around them are an aligned extension |
| Operators.CompareText | Sources/DBQuery/BinaryFunctions.swift:12-48 | every comparison operator is padded with exactly one space on each side |
| Operators.ListText | Sources/DBQuery/BinaryFunctions.swift:49-61 | list operators are padded; the text ends in " IN " exactly for `~~`/`!~` and in "BETWEEN " exactly for `\|=\|`/`!\|=\|` |
| Operators.ParseCompare | Sources/DBQuery/BinaryFunctions.swift:12-48 | a parsed comparison renders back to the parsed text |
| Operators.CompareRoundTrip | Sources/DBQuery/BinaryFunctions.swift:12-48 | every comparison has its own text: parsing the rendering recovers it |
| Operators.ParseListOp | Sources/DBQuery/BinaryFunctions.swift:49-61 | a parsed list operator renders back to the parsed text |
| Operators.ListOpRoundTrip | Sources/DBQuery/BinaryFunctions.swift:49-61 | every list operator has its own text: parsing the rendering recovers it |
| Operators.CompareColumns | Sources/DBQuery/BinaryFunctions.swift:12-29 | a column comparison keeps both columns and carries the operator's text |
| Operators.CompareValue | Sources/DBQuery/BinaryFunctions.swift:31-48 | a value comparison keeps the column and the value and carries the operator's text |
| Operators.CompareList | Sources/DBQuery/BinaryFunctions.swift:49-61 | a list comparison keeps the column and the whole list, whatever its length |
| Operators.Concat | Sources/DBQuery/BinaryFunctions.swift:8-10 | `+` on raw fragments: the left text, one space, the right text; the left binds, then the right binds |
| Operators.ConcatAssociative | Sources/DBQuery/BinaryFunctions.swift:8-10 | `+` is associative, so a chain needs no parentheses |
| Items.ColumnOfRoundTrip | Sources/DBQuery/DBItems/DBColumn.swift:19-30 | a column made from a `Column` renders text that reads back as that column's table and key and the alias given |
| Items.ColumnSql | Sources/DBQuery/DBItems/DBColumn.swift:25-30 | a rendered column starts with a double quote, and ends with one when there is no alias |
| Items.AliasRoundTrip | Sources/DBQuery/DBItems/DBColumn.swift:27 | the bare " AS alias" suffix parses back into the alias |
| Items.ColumnRoundTrip | Sources/DBQuery/DBItems/DBColumn.swift:25-30 | on quote-free names, the table prefix, the quoted name and the alias are recovered exactly from the rendering |
| Items.ColumnSqlInjective | Sources/DBQuery/DBItems/DBColumn.swift:25-30 | two columns with quote-free names that render the same are the same column |
| Items.PlainTableRoundTrip | Sources/DBQuery/DBItems/DBTable.swift:13-23 | a table made with the default schema and alias renders as its quoted name alone, which reads back as a table with neither |
| Items.TableSql | Sources/DBQuery/DBItems/DBTable.swift:19-23 | a rendered table starts and ends with a double quote |
| Items.QuotedAliasRoundTrip | Sources/DBQuery/DBItems/DBTable.swift:21 | the quoted " AS alias" suffix parses back into the alias |
| Items.TableRoundTrip | Sources/DBQuery/DBItems/DBTable.swift:19-23 | on quote-free names, schema, table and alias are recovered exactly from the rendering |
| Items.JoinMethodSql | Sources/DBQuery/DBItems/DBJoinMethod.swift:15-23 | each join keyword is padded with one space on each side |
| Items.ParseJoinMethod | Sources/DBQuery/DBItems/DBJoinMethod.swift:15-23 | a parsed join method renders back to the parsed text |
| Items.JoinMethodRoundTrip | Sources/DBQuery/DBItems/DBJoinMethod.swift:15-23 | every join method has its own keyword, so the rendering is injective |
| Items.DirectionSql | Sources/DBQuery/DBItems/DBDirection.swift:10-21 | each sort direction has a leading space and no trailing space |
| Items.ParseDirection | Sources/DBQuery/DBItems/DBDirection.swift:10-21 | a parsed direction renders back to the parsed text |
| Items.DirectionRoundTrip | Sources/DBQuery/DBItems/DBDirection.swift:10-21 | every direction has its own suffix, so the rendering is injective |
| Models.ColumnOfMatchesItems | Sources/DBQuery/Models/DBColumn.swift:19-36 | without an alias, the `Models` and the `DBItems` column made from the same `Column` render the same text |
| Models.ModelColumnMatchesItems | Sources/DBQuery/Models/DBColumn.swift:25-36 | with double-quote quoting, a column renders like the `DBItems` column, except that its alias is quoted |
| Models.ModelTableMatchesItems | Sources/DBQuery/Models/DBTable.swift:17-22 | with double-quote quoting, a table renders like the `DBItems` table without a schema |
| Models.ModelTableInjective | Sources/DBQuery/Models/DBTable.swift:17-22 | distinct quote-free tables render differently |
| Conditions.ColumnRef | Sources/DBQuery/Models/DBColumn.swift:25-36 | a column is its quoted key, after its quoted table and "." when the qualifier gives a table |
| Conditions.Padded | Sources/DBQuery/Select/DBSelectBuilder+Predicate.swift:97-101 | a custom operator with exactly one space on each side |
| Conditions.Fragment | Sources/DBQuery/Select/DBSelectBuilder+Predicate.swift:51-111 | a filter starts with its left column; it has no bind for two columns, the value for one, the values in order for a list, and no cast |
| Conditions.SetFragment | Sources/DBQuery/Update/DBUpdateBuilder+Set.swift:16-64 | an assignment starts with its unqualified column and operator; plus/minus name the column again after " = "; the value is its one bind |
| PredicateSerialize.InToEq | Sources/DBQuery/Protocols/DBFilterSerialize.swift:29-31 | a text ending in " IN " gets " = " instead; any other text is unchanged |
| PredicateSerialize.WriteFilter | Sources/DBQuery/Protocols/DBFilterSerialize.swift:22-63 | one pass of the loop appends the filter's step, and the counter equals the bind count |
| PredicateSerialize.WriteCast | Sources/DBQuery/Protocols/DBFilterSerialize.swift:26-41 | with a cast type: one placeholder (" IN " becoming " = ") or a parenthesised list, the counter advanced by the bind count |
| PredicateSerialize.WritePlain | Sources/DBQuery/Protocols/DBFilterSerialize.swift:42-63 | without a cast: one placeholder, `$a AND $b` after "BETWEEN ", or a parenthesised list, the counter advanced by the bind count |
| PredicateSerialize.SerializeFilters | Sources/DBQuery/Protocols/DBFilterSerialize.swift:13-68 | the loop renders every filter in order, skipping empty IN filters |
| PredicateSerialize.SerializedBinds | Sources/DBQuery/Protocols/DBFilterSerialize.swift:24-25 | the output binds are the input's followed by every filter's, in order; the cast is kept |
| PredicateSerialize.Kept | Sources/DBQuery/Protocols/DBFilterSerialize.swift:19-21 | the filters that remain are none of the skipped ones |
| PredicateSerialize.SkippedIgnored | Sources/DBQuery/Protocols/DBFilterSerialize.swift:19-21 | a bind-less filter ending in " IN " contributes nothing |
| PredicateSerialize.StepAligned | Sources/DBQuery/Protocols/DBFilterSerialize.swift:26-62 | one filter's placeholders are `$j+1, ..., $j+n` for its `n` binds |
| PredicateSerialize.TraceAligned | Sources/DBQuery/Protocols/DBFilterSerialize.swift:15-65 | the placeholder numbers written are `$m+1, $m+2, ...`, one per bind appended, in order |
| PredicateSerialize.StepNumbersAligned | Sources/DBQuery/Protocols/DBFilterSerialize.swift:26-62 | one filter writes `$m+1, ..., $m+n` after `m` binds |
| PredicateSerialize.HeadLead | Sources/DBQuery/Protocols/DBFilterSerialize.swift:29-31 | for a filter whose text covers " IN ", the rewrite stays inside the filter's text |
| PredicateSerialize.StepExtends | Sources/DBQuery/Protocols/DBFilterSerialize.swift:22-63 | one such filter is an aligned extension by its text, its placeholders and its binds |
| PredicateSerialize.SerializedExtends | Sources/DBQuery/Protocols/DBFilterSerialize.swift:13-68 | for such filters, the whole loop is an aligned extension of its input |
| PredicateSerialize.StepCast | Sources/DBQuery/Protocols/DBFilterSerialize.swift:26-41 | with a cast type set, every placeholder of the filter carries `::type` |
| PredicateSerialize.BindlessFilter | Sources/DBQuery/Protocols/DBFilterSerialize.swift:19-24 | a filter without binds is skipped when it ends in " IN ", and otherwise adds its text alone |
| PredicateSerialize.SingleBindFilter | Sources/DBQuery/Protocols/DBFilterSerialize.swift:27-32 | a single bind is one placeholder `$j+1` after the text, with " IN " becoming " = " |
| PredicateSerialize.BetweenFilter | Sources/DBQuery/Protocols/DBFilterSerialize.swift:50-52 | two binds after "BETWEEN ", no cast: `$a AND $b`, without parentheses |
| PredicateSerialize.ListFilter | Sources/DBQuery/Protocols/DBFilterSerialize.swift:54-61 | any other bind list is a parenthesised comma list of consecutive placeholders |
| PredicateSerialize.StepKeeps | Sources/DBQuery/Protocols/DBFilterSerialize.swift:30 | a step never shortens the text, and the rewrite reaches back at most four characters |
| PredicateSerialize.SerializedKeeps | Sources/DBQuery/Protocols/DBFilterSerialize.swift:13-68 | the whole loop keeps the incoming text except at most its last four characters |
| SelectDeletePredicate.Fragment | Sources/DBQuery/Protocols/DBPredicateForSelectDelete.swift:68-180 | each overload's fragment carries its binds and its cast, and the custom forms pad the operator |
| SelectDeletePredicate.AppendedShape | Sources/DBQuery/Protocols/DBPredicateForSelectDelete.swift:71-75 | one call appends exactly one fragment; the conjunction precedes it exactly when the list is non-empty and does not end with "(" |
| SelectDeletePredicate.AppendedBinds | Sources/DBQuery/Protocols/DBPredicateForSelectDelete.swift:68-180 | the list's binds are the earlier ones followed by the new fragment's |
| SelectDeletePredicate.BracketRule | Sources/DBQuery/Protocols/DBPredicateForSelectDelete.swift:48-56 | after "(" the next filter has no conjunction; after anything else it has one |
| SelectDeletePredicate.PredicateList.constructor | Sources/DBQuery/Protocols/DBPredicateForSelectDelete.swift:8-9 | a new list is empty |
| SelectDeletePredicate.PredicateList.OpenBracket | Sources/DBQuery/Protocols/DBPredicateForSelectDelete.swift:48-51 | appends a bind-less "(" |
| SelectDeletePredicate.PredicateList.CloseBracket | Sources/DBQuery/Protocols/DBPredicateForSelectDelete.swift:54-57 | appends a bind-less ")" |
| SelectDeletePredicate.PredicateList.Filter | Sources/DBQuery/Protocols/DBPredicateForSelectDelete.swift:68-180 | appends the fragment with " AND " in front when the list joins |
| SelectDeletePredicate.PredicateList.OrFilter | Sources/DBQuery/Protocols/DBPredicateForSelectDelete.swift:203-265 | appends the fragment with " OR " in front when the list joins |
| SelectDeletePredicate.PredicateList.FilterRaw | Sources/DBQuery/Protocols/DBPredicateForSelectDelete.swift:189-191 | appends the raw fragment verbatim |
| FilterSerialize.ShapeForm | Sources/DBQuery/DBFilterSerialize.swift:75-81 | an item's text is its lead, its placeholders separated by ", ", then its tail |
| FilterSerialize.ShapePlaceholders | Sources/DBQuery/DBFilterSerialize.swift:58-81 | an item's placeholders are `$j+1, ..., $j+count` |
| FilterSerialize.WriteItem | Sources/DBQuery/DBFilterSerialize.swift:43-124 | one item writes its shape's text and sends its binds, the counter advancing by one per placeholder |
| FilterSerialize.SerializeItem | Sources/DBQuery/DBFilterSerialize.swift:21-130 | `serializeItem` returns the input for an empty list and otherwise the rendered list after it |
| FilterSerialize.WriteBody | Sources/DBQuery/DBFilterSerialize.swift:41-84 | the loop over all items but the last writes their text and sends their binds |
| FilterSerialize.WriteNext | Sources/DBQuery/DBFilterSerialize.swift:42-83 | one pass of that loop writes item `i` as a non-final item |
| FilterSerialize.SerializeFilter | Sources/DBQuery/DBFilterSerialize.swift:14-19 | the AND list is rendered first and the OR list after it |
| FilterSerialize.BodyPlaceholders | Sources/DBQuery/DBFilterSerialize.swift:41-84 | the first `n` items' placeholders are consecutive from `$j+1`, one per bind they send |
| FilterSerialize.ListRendering | Sources/DBQuery/DBFilterSerialize.swift:37-124 | a whole list's placeholders are numbered on from `$j`, one per bind it sends |
| FilterSerialize.ClauseAligned | Sources/DBQuery/DBFilterSerialize.swift:21-130 | `serializeItem` is an aligned extension by the selected list's pieces and binds |
| FilterSerialize.ClauseEmpty | Sources/DBQuery/DBFilterSerialize.swift:35 | with nothing selected the input comes back unchanged, with no space and no " AND (" |
| FilterSerialize.FilterAligned | Sources/DBQuery/DBFilterSerialize.swift:14-19 | `serializeFilter` is an aligned extension by the AND list, then the OR list |
| FilterSerialize.ClauseForm | Sources/DBQuery/DBFilterSerialize.swift:24-33 | the AND list follows a space; the OR list follows a space, or is wrapped in " AND (...)" when the AND list is non-empty |
| FilterSerialize.ItemSeparator | Sources/DBQuery/DBFilterSerialize.swift:46-81 | a non-final item is followed by the conjunction, or by ", " when it is inlined; the last item by nothing |
| FilterSerialize.ItemTails | Sources/DBQuery/DBFilterSerialize.swift:46-81 | the separator follows the placeholders, or the whole text when there are none |
| FilterSerialize.SingleBindItem | Sources/DBQuery/DBFilterSerialize.swift:100-106 | one non-literal bind is one placeholder, parenthesised after " IN " in the filter lists |
| FilterSerialize.ListItem | Sources/DBQuery/DBFilterSerialize.swift:115-122 | several binds are a parenthesised list of consecutive placeholders, all sent |
| FilterSerialize.InlinedItem | Sources/DBQuery/DBFilterSerialize.swift:91-113 | a quoted-literal first bind is written inline and nothing is sent |
| FilterSerialize.BindlessItem | Sources/DBQuery/DBFilterSerialize.swift:88-89 | a bind-less item is its text, followed by the conjunction unless it is last |
| Clauses.WriteWhere | Sources/DBQuery/Select/DBSelectBuilder.swift:119-122 | " WHERE" and the filters only when either list is non-empty |
| Clauses.WhereKeeps | Sources/DBQuery/Select/DBSelectBuilder.swift:119-122 | the text before is kept, " WHERE" follows exactly when either list is non-empty, and the lists' binds are appended |
| Clauses.WhereAligned | Sources/DBQuery/Select/DBSelectBuilder.swift:119-122 | the WHERE clause is an aligned extension of the text before it |
| Clauses.WriteWith | Sources/DBQuery/Update/DBUpdateBuilder.swift:43-49 | the WITH prefix and the binds of every WITH fragment, in order |
| Clauses.WithStarts | Sources/DBQuery/Delete/DBDeleteBuilder.swift:41-48 | the statement starts with "WITH " exactly when there are WITH fragments, and with its keyword otherwise |
| Clauses.WriteCursorOrWhere | Sources/DBQuery/Delete/DBDeleteBuilder.swift:54-61 | " WHERE CURRENT OF" and the cursor, or the WHERE clause |
| Clauses.CursorAligned | Sources/DBQuery/Delete/DBDeleteBuilder.swift:54-61 | the cursor-or-WHERE step is an aligned extension |
| Clauses.CursorIgnoresFilters | Sources/DBQuery/Delete/DBDeleteBuilder.swift:54-61 | under a cursor the filters are ignored and no bind is sent; without one it is the WHERE step |
| Clauses.CursorKeeps | Sources/DBQuery/Update/DBUpdateBuilder.swift:128-135 | the step keeps the text before it and appends the binds it sends |
| Joins.SerializeJoin | Sources/DBQuery/Select/DBJoin/DBJoinBuilder.swift:26-36 | the keyword and table, then " ON " and the filters when there are any |
| Joins.JoinWithoutFilters | Sources/DBQuery/Select/DBJoin/DBJoinBuilder.swift:16-36 | a join as `init` creates it, without conditions, adds only its keyword and table, and no bind |
| Joins.JoinShape | Sources/DBQuery/Select/DBJoin/DBJoinBuilder.swift:26-36 | the keyword is kept at the head, " ON " follows when there are filters, and the binds are appended in order |
| Joins.JoinNumbering | Sources/DBQuery/Select/DBJoin/DBJoinBuilder.swift:31-33 | the ON placeholders continue after the incoming binds |
| Joins.JoinAligned | Sources/DBQuery/Select/DBJoin/DBJoinBuilder.swift:26-36 | for `Local` filters, a join is an aligned extension of the incoming fragment |
| Joins.WithCondition | Sources/DBQuery/Select/DBSelectBuilder+Join.swift:78-213 | `on` appends to the join's AND list and `orOn` to its OR list; nothing else changes |
| Joins.OnQualified | Sources/DBQuery/Select/DBSelectBuilder+Join.swift:78-83 | an ON condition's left column is qualified by the join's alias, the right one by the given alias |
| Joins.InnerJoins | Sources/DBQuery/Select/DBSelectBuilder+Paginate.swift:27 | the kept joins are all inner joins taken from the list |
| Joins.InnerJoinsKeep | Sources/DBQuery/Select/DBSelectBuilder+Paginate.swift:27 | every inner join is kept |
| Joins.InnerJoinsWhole | Sources/DBQuery/Select/DBSelectBuilder+Paginate.swift:27 | a list of inner joins is kept whole, in its order |
| SelectStatement.WriteHead | Sources/DBQuery/Select/DBSelectBuilder.swift:72-114 | WITH, SELECT, DISTINCT, the projection and FROM, with the WITH and column binds |
| SelectStatement.WriteJoins | Sources/DBQuery/Select/DBSelectBuilder.swift:116-118 | every join in order |
| SelectStatement.WriteTail | Sources/DBQuery/Select/DBSelectBuilder.swift:124-145 | GROUP BY, HAVING, ORDER BY, LIMIT, OFFSET, the lock and ";" in that order |
| SelectStatement.AggregateWraps | Sources/DBQuery/Select/DBSelectBuilder.swift:97-109 | an aggregate wraps the column text as " name(cols)" |
| SelectStatement.DistinctForms | Sources/DBQuery/Select/DBSelectBuilder.swift:81-87 | an empty DISTINCT list is " DISTINCT"; otherwise " DISTINCT ON (" the list and "))" |
| SelectStatement.JoinsKeep | Sources/DBQuery/Select/DBSelectBuilder.swift:116-118 | the joins keep the text before them and append their binds in declaration order |
| SelectStatement.SelectKeepsHead | Sources/DBQuery/Select/DBSelectBuilder.swift:71-150 | the statement starts with its head |
| SelectStatement.HeadStarts | Sources/DBQuery/Select/DBSelectBuilder.swift:74-79 | the head starts with "WITH " exactly when there are WITH fragments, and with "SELECT" otherwise |
| SelectStatement.SelectWith | Sources/DBQuery/Select/DBSelectBuilder.swift:74-79 | the same for the whole statement |
| SelectStatement.SelectEnds | Sources/DBQuery/Select/DBSelectBuilder.swift:145 | the statement ends with ";" |
| SelectStatement.SelectBinds | Sources/DBQuery/Select/DBSelectBuilder.swift:77-122 | the binds are those of WITH, of the columns, of each join, then of the AND and the OR list |
| SelectStatement.SelectWhere | Sources/DBQuery/Select/DBSelectBuilder.swift:119-122 | " WHERE" follows the joins exactly when either list is non-empty |
| SelectStatement.JoinsAligned | Sources/DBQuery/Select/DBSelectBuilder.swift:116-118 | for `Local` join filters, the joins are one aligned extension of the text before them |
| SelectStatement.SelectAligned | Sources/DBQuery/Select/DBSelectBuilder.swift:71-150 | for `Local` join filters, the joins and WHERE write placeholders after the head numbered on from the head's binds, so `$p` names the `p`-th bind |
| Pages.Clamp | Sources/DBQuery/Select/DBSelectBuilder+Paginate.swift:21-24 | the page defaults to 1 and is at least 1; the size defaults to 100 and lies in 1 ... 100 |
| Pages.ClampedOffset | Sources/DBQuery/Select/DBSelectBuilder+Paginate.swift:112-114 | the offset is never negative, is 0 on page 1, and each page starts where the one before ends |
| Pages.CeilDiv | Sources/DBQuery/Select/DBSelectBuilder+Paginate.swift:87 | `a / b` rounded up, for either sign of `b` |
| Pages.PageCountFits | Sources/DBQuery/Select/DBSelectBuilder+Paginate.swift:86-89 | for a positive size, the page count is at least 1, its pages hold every row and one page fewer would not |
| Pages.MapPageIdentity | Sources/DBQuery/Select/DBSelectBuilder+Paginate.swift:66-71 | mapping by the identity gives the page back |
| Pages.MapPageCompose | Sources/DBQuery/Select/DBSelectBuilder+Paginate.swift:66-71 | mapping twice is mapping once by the composition |
| SelectBuilders.AggregColumns | Sources/DBQuery/Select/DBSelectBuilder+Clause.swift:196-205 | the aggregated columns, or `"table".*` without columns; no binds |
| SelectBuilders.FieldText | Sources/DBQuery/Select/DBSelectBuilder+Clause.swift:65-72 | a custom field, then " AS " and the quoted alias when one is given |
| SelectBuilders.SelectBuilder.constructor | Sources/DBQuery/Select/DBSelectBuilder.swift:38-47 | the model's table under the model's alias is the only FROM item; every other field is empty |
| SelectBuilders.SelectBuilder.Copy | Sources/DBQuery/Select/DBSelectBuilder.swift:51-69 | a fresh builder with the same fields, except the row lock and NOWAIT, which are cleared |
| SelectBuilders.SelectBuilder.With | Sources/DBQuery/Select/DBSelectBuilder+Clause.swift:18-22 | one more WITH fragment |
| SelectBuilders.SelectBuilder.From | Sources/DBQuery/Select/DBSelectBuilder+Clause.swift:32-38 | one more FROM table under `tableAlias ?? model.alias` |
| SelectBuilders.SelectBuilder.Field | Sources/DBQuery/Select/DBSelectBuilder+Clause.swift:49-56 | one more column, qualified by `tableAlias ?? column.table`, with its alias |
| SelectBuilders.SelectBuilder.FieldCustom | Sources/DBQuery/Select/DBSelectBuilder+Clause.swift:65-72 | one more custom column |
| SelectBuilders.SelectBuilder.FieldRaw | Sources/DBQuery/Select/DBSelectBuilder+Clause.swift:79-82 | one more column fragment, binds included |
| SelectBuilders.SelectBuilder.AllFields | Sources/DBQuery/Select/DBSelectBuilder+Clause.swift:88-92 | the column list becomes `"alias".*` |
| SelectBuilders.SelectBuilder.Fields | Sources/DBQuery/Select/DBSelectBuilder+Clause.swift:101-108 | the columns appended in order |
| SelectBuilders.SelectBuilder.GroupBy | Sources/DBQuery/Select/DBSelectBuilder+Clause.swift:120-127 | the GROUP BY columns appended in order |
| SelectBuilders.SelectBuilder.Sort | Sources/DBQuery/Select/DBSelectBuilder+Clause.swift:137-145 | the ORDER BY columns appended, each with the direction |
| SelectBuilders.SelectBuilder.Distinct | Sources/DBQuery/Select/DBSelectBuilder+Partial.swift:16-22 | the DISTINCT ON list, replacing any earlier one |
| SelectBuilders.SelectBuilder.Limit | Sources/DBQuery/Select/DBSelectBuilder+Partial.swift:29-32 | the last LIMIT wins |
| SelectBuilders.SelectBuilder.Offset | Sources/DBQuery/Select/DBSelectBuilder+Partial.swift:39-42 | the last OFFSET wins |
| SelectBuilders.SelectBuilder.For | Sources/DBQuery/Select/DBSelectBuilder+Clause.swift:217-220 | the row lock is set |
| SelectBuilders.SelectBuilder.NoWait | Sources/DBQuery/Select/DBSelectBuilder+Clause.swift:226-229 | NOWAIT is set |
| SelectBuilders.SelectBuilder.Aggreg | Sources/DBQuery/Select/DBSelectBuilder+Clause.swift:196-207 | the column list is replaced by the aggregated columns, and the `first(limit: nil)` that runs the query clears LIMIT |
| SelectBuilders.SelectBuilder.Aggregated | Sources/DBQuery/Select/DBSelectBuilder+Clause.swift:150-207 | the aggregate is set, every aggregate clears LIMIT, the columns are replaced, and no row gives 0 |
| SelectBuilders.SelectBuilder.AddJoin | Sources/DBQuery/Select/DBSelectBuilder+Join.swift:19-30 | one more join on the model's table under `tableAlias ?? model.alias` |
| SelectBuilders.SelectBuilder.On | Sources/DBQuery/Select/DBSelectBuilder+Join.swift:78-224 | the condition is added to the last join only, in its AND or OR list |
| SelectBuilders.SelectBuilder.Filter | Sources/DBQuery/Select/DBSelectBuilder+Predicate.swift:51-184 | the condition is appended to the AND or the OR list |
| SelectBuilders.SelectBuilder.FilterRaw | Sources/DBQuery/Select/DBSelectBuilder+Predicate.swift:109-112 | a raw fragment is appended as it is |
| SelectBuilders.SelectBuilder.ForCount | Sources/DBQuery/Select/DBSelectBuilder+Paginate.swift:26-27 | the count query has no ORDER BY and only the inner joins |
| SelectBuilders.SelectBuilder.Window | Sources/DBQuery/Select/DBSelectBuilder+Paginate.swift:28-29 | OFFSET and LIMIT of the page request |
| SelectBuilders.SelectBuilder.Paginate | Sources/DBQuery/Select/DBSelectBuilder+Paginate.swift:20-43 | a clamped request; the count query is a copy without ORDER BY, row lock or NOWAIT, with the inner joins only, counting `"alias".*` without LIMIT; this builder windowed by OFFSET and LIMIT; the page holds the items, the clamped request and the count (0 without a row) |
| SelectBuilders.SelectBuilder.Serialize | Sources/DBQuery/Select/DBSelectBuilder.swift:71-150 | the select statement of the current fields |
| UpdateStatement.WriteSets | Sources/DBQuery/Update/DBUpdateBuilder.swift:53-122 | the SET list with its binds, numbered on from the incoming binds |
| UpdateStatement.WriteUpdate | Sources/DBQuery/Update/DBUpdateBuilder.swift:40-146 | the update statement, step by step |
| UpdateStatement.SetsAligned | Sources/DBQuery/Update/DBUpdateBuilder.swift:53-122 | the SET list is an aligned extension |
| UpdateStatement.SetListIsFilterList | Sources/DBQuery/Update/DBUpdateBuilder.swift:53-122 | when no assignment text ends in " IN ", the SET list renders like a filter list |
| UpdateStatement.AssignmentItem | Sources/DBQuery/Update/DBUpdateBuilder.swift:53-122 | an assignment's item is its text, then the literal or the next placeholder, then ", " unless it is last |
| UpdateStatement.UpdateKeeps | Sources/DBQuery/Update/DBUpdateBuilder.swift:40-146 | each part is kept at the head of the statement |
| UpdateStatement.UpdateStarts | Sources/DBQuery/Update/DBUpdateBuilder.swift:43-50 | "WITH " exactly when there are WITH fragments, "UPDATE " and the table otherwise |
| UpdateStatement.UpdateEnds | Sources/DBQuery/Update/DBUpdateBuilder.swift:141 | the statement ends with the caller's ending |
| UpdateStatement.UpdateBinds | Sources/DBQuery/Update/DBUpdateBuilder.swift:40-146 | the binds of WITH, then of SET, then of the filters when there is no cursor |
| UpdateStatement.UpdateCursor | Sources/DBQuery/Update/DBUpdateBuilder.swift:128-135 | under a cursor the filters are ignored and " WHERE CURRENT OF" follows FROM |
| UpdateStatement.UpdateWhere | Sources/DBQuery/Update/DBUpdateBuilder.swift:128-135 | without a cursor, " WHERE" follows FROM exactly when either list is non-empty |
| UpdateStatement.UpdateAligned | Sources/DBQuery/Update/DBUpdateBuilder.swift:40-146 | SET and WHERE write placeholders numbered on from the WITH binds, so `$p` names the `p`-th bind |
| UpdateBuilders.UpdateBuilder.constructor | Sources/DBQuery/Update/DBUpdateBuilder.swift:29-38 | the table of the model in this section, without alias; every list empty |
| UpdateBuilders.UpdateBuilder.With | Sources/DBQuery/Update/DBUpdateBuilder+Clause.swift:16-20 | the WITH fragment |
| UpdateBuilders.UpdateBuilder.Cursor | Sources/DBQuery/Update/DBUpdateBuilder+Clause.swift:27-31 | the cursor |
| UpdateBuilders.UpdateBuilder.Returning | Sources/DBQuery/Update/DBUpdateBuilder+Clause.swift:38-43 | the RETURNING columns, qualified by the alias, replacing any earlier list |
| UpdateBuilders.UpdateBuilder.Set | Sources/DBQuery/Update/DBUpdateBuilder+Set.swift:16-64 | one more assignment |
| UpdateBuilders.UpdateBuilder.Filter | Sources/DBQuery/Update/DBUpdateBuilder+Predicate.swift:17-155 | the condition, unqualified, appended to the AND or the OR list |
| UpdateBuilders.UpdateBuilder.Serialize | Sources/DBQuery/Update/DBUpdateBuilder.swift:40-146 | the update statement of the current fields |
| DeleteStatement.WriteDelete | Sources/DBQuery/Delete/DBDeleteBuilder.swift:38-69 | the delete statement, step by step |
| DeleteStatement.DeleteKeeps | Sources/DBQuery/Delete/DBDeleteBuilder.swift:38-69 | each part is kept at the head of the statement |
| DeleteStatement.DeleteStarts | Sources/DBQuery/Delete/DBDeleteBuilder.swift:41-48 | "WITH " exactly when there are WITH fragments, "DELETE FROM " and the table otherwise |
| DeleteStatement.DeleteEnds | Sources/DBQuery/Delete/DBDeleteBuilder.swift:66 | the statement ends with the caller's ending |
| DeleteStatement.DeleteBinds | Sources/DBQuery/Delete/DBDeleteBuilder.swift:38-69 | the binds of WITH, then of the filters when there is no cursor |
| DeleteStatement.DeleteCursor | Sources/DBQuery/Delete/DBDeleteBuilder.swift:54-55 | under a cursor the filters are ignored and " WHERE CURRENT OF" follows USING |
| DeleteStatement.DeleteWhere | Sources/DBQuery/Delete/DBDeleteBuilder.swift:56-61 | without a cursor, " WHERE" follows USING exactly when either list is non-empty |
| DeleteStatement.DeleteAligned | Sources/DBQuery/Delete/DBDeleteBuilder.swift:38-69 | WHERE writes placeholders numbered on from the WITH binds |
| DeleteBuilders.DeleteBuilder.constructor | Sources/DBQuery/Delete/DBDeleteBuilder.swift:28-36 | the model's table in this section under the model's alias; every list empty |
| DeleteBuilders.DeleteBuilder.With | Sources/DBQuery/Delete/DBDeleteBuilder+Clause.swift:17-21 | the WITH fragment |
| DeleteBuilders.DeleteBuilder.Using | Sources/DBQuery/Delete/DBDeleteBuilder+Clause.swift:30-36 | one more USING table under `tableAlias ?? model.alias` |
| DeleteBuilders.DeleteBuilder.Cursor | Sources/DBQuery/Delete/DBDeleteBuilder+Clause.swift:43-47 | the cursor |
| DeleteBuilders.DeleteBuilder.Returning | Sources/DBQuery/Delete/DBDeleteBuilder+Clause.swift:56-62 | the RETURNING columns qualified by `tableAlias ?? alias` |
| DeleteBuilders.DeleteBuilder.Filter | Sources/DBQuery/Delete/DBDeleteBuilder+Predicate.swift:19-146 | the condition, qualified by the alias, appended to the AND or the OR list |
| DeleteBuilders.DeleteBuilder.Serialize | Sources/DBQuery/Delete/DBDeleteBuilder.swift:38-69 | the delete statement of the current fields |
| InsertStatement.ValueBinds | Sources/DBQuery/Insert/DBInsertBuilder.swift:54-64 | a row sends at most one bind per value |
| InsertStatement.ValueTexts | Sources/DBQuery/Insert/DBInsertBuilder.swift:53-64 | one item per value |
| InsertStatement.Lines | Sources/DBQuery/Insert/DBInsertBuilder.swift:51-66 | one line per row |
| InsertStatement.WriteRow | Sources/DBQuery/Insert/DBInsertBuilder.swift:53-64 | a row's items and binds, the counter advanced by one per bind |
| InsertStatement.WriteRows | Sources/DBQuery/Insert/DBInsertBuilder.swift:51-66 | every row's line and binds, in order |
| InsertStatement.WriteInsert | Sources/DBQuery/Insert/DBInsertBuilder.swift:34-77 | the insert statement, step by step |
| InsertStatement.ValueTextAt | Sources/DBQuery/Insert/DBInsertBuilder.swift:55-63 | item `i` is the value inline when it is a quoted literal, and otherwise the next placeholder after the binds before it |
| InsertStatement.ValueBindsAll | Sources/DBQuery/Insert/DBInsertBuilder.swift:59-63 | a row without quoted literals sends all its values |
| InsertStatement.ValueBindsNone | Sources/DBQuery/Insert/DBInsertBuilder.swift:55-58 | a row of quoted literals sends none |
| InsertStatement.ValueBindsFrom | Sources/DBQuery/Insert/DBInsertBuilder.swift:55-63 | every bind sent is a value of the row and not a quoted literal |
| InsertStatement.ItemsAligned | Sources/DBQuery/Insert/DBInsertBuilder.swift:53-65 | a row's placeholders are consecutive from `$j+1`, one per bind it sends |
| InsertStatement.RowsText | Sources/DBQuery/Insert/DBInsertBuilder.swift:51-67 | the rows' pieces spell the lines joined by ", " |
| InsertStatement.RowsPlaceholders | Sources/DBQuery/Insert/DBInsertBuilder.swift:51-67 | the rows' placeholders are consecutive from `$j+1` in row-major order, one per bind |
| InsertStatement.InsertAligned | Sources/DBQuery/Insert/DBInsertBuilder.swift:34-77 | the rows write placeholders numbered on from the WITH binds, so `$p` names the `p`-th bind |
| InsertStatement.InsertKeeps | Sources/DBQuery/Insert/DBInsertBuilder.swift:34-77 | the head is kept, and the binds are those of WITH followed by the rows' |
| InsertStatement.InsertStarts | Sources/DBQuery/Insert/DBInsertBuilder.swift:37-44 | "WITH " exactly when a WITH fragment is set, "INSERT INTO " and the table otherwise |
| InsertStatement.InsertEnds | Sources/DBQuery/Insert/DBInsertBuilder.swift:72 | the statement ends with ";" |
| InsertBuilders.InsertBuilder.constructor | Sources/DBQuery/Insert/DBInsertBuilder.swift:26-32 | no WITH fragment, no rows, no columns |
| InsertBuilders.InsertBuilder.With | Sources/DBQuery/Insert/DBInsertBuilder+Clause.swift:15-19 | the WITH fragment, replacing any earlier one |
| InsertBuilders.InsertBuilder.Fields | Sources/DBQuery/Insert/DBInsertBuilder+Clause.swift:26-31 | more columns, qualified by the alias |
| InsertBuilders.InsertBuilder.Values | Sources/DBQuery/Insert/DBInsertBuilder+Clause.swift:38-42 | one more row |
| InsertBuilders.InsertBuilder.Returning | Sources/DBQuery/Insert/DBInsertBuilder+Clause.swift:50-55 | the RETURNING columns, replacing any earlier list |
| InsertBuilders.InsertBuilder.ResetValues | Sources/DBQuery/Insert/DBInsertBuilder+Clause.swift:61-65 | no rows, everything else kept |
| InsertBuilders.InsertBuilder.OnConflict | Sources/DBQuery/Insert/DBInsertBuilder+Clause.swift:72-77 | the conflict columns, replacing any earlier list |
| InsertBuilders.InsertBuilder.Set | Sources/DBQuery/Insert/DBInsertBuilder+Clause.swift:84-143 | one more conflict assignment, its column unqualified |
| InsertBuilders.InsertBuilder.DoNothing | Sources/DBQuery/Insert/DBInsertBuilder+Clause.swift:150-153 | the conflict is to be ignored |
| InsertBuilders.InsertBuilder.Serialize | Sources/DBQuery/Insert/DBInsertBuilder.swift:34-77 | the insert statement of the current fields |

## Left out

- Text is compared by Unicode code point, where Swift's `String` works on grapheme clusters. This affects the quoted-literal test (`prefix(1)`/`suffix(1)`) and the `suffix(4) == " IN "`, `dropLast(3)` and `hasSuffix("BETWEEN ")` tests. A bind that starts with a quote followed by a combining mark is inlined by the model but sent as a bind by the source.
- `Pages.Offset`: `(page - 1) * per` is computed on unbounded integers. The source's `Int` arithmetic traps on overflow for a huge `page`, and the model does not.
- Database access: running statements, decoding rows, the `async` fetchers and the `database` handle. The builders only render.
- The `col:` and `str:` string interpolations. Their source is not part of this model, so identifier quoting is the function parameter `quote`. The double-quote wrapping written out in `DBItems` is modelled exactly.
- `DBCondition.rawValue`, whose source is not part of this model. The AND and OR separators are the parameters `andSep` and `orSep`.
- Encoding of bind values: a bind is a string or an opaque other value. Only the quoted-literal test looks inside it.
- `PageMetadata.pageCount` computes in floating point and converts to `Int`. `Pages.PageCount` uses integer ceiling division and requires a non-zero page size, where the source divides by zero. `Pages.PageCountFits` is stated for a positive page size, the only one `paginate` produces.
- The results of the queries that `paginate` and the aggregates run. They are parameters (`items`, `countRow`, `row`).
- `SelectBuilders.SelectBuilder.Aggregated`: `maximum`, `minimum` and `sum` decode a `Double`. The model returns the row's integer value for all five aggregates.
- `SelectBuilders.SelectBuilder.On`: the source indexes `joins[last]`, and without a join it stops with a fatal error. That case is the method's precondition rather than a modelled error path.
- `SelectBuilders.SelectBuilder.On`: `on`/`orOn` write the join's `filterAnd`/`filterOr`, which `DBJoin` does not declare. `DBJoin.serialize` renders its `filters` list. The model keeps all three lists, and a join renders `filters`, as written.
- `SelectStatement.SelectAligned`, `SelectStatement.JoinsAligned` and `Joins.JoinAligned` are stated only for join filters that have at least four characters of text when they carry exactly one bind (`PredicateSerialize.Local`). Filters with no bind or with several binds have no length condition. For a shorter single-bind filter, the " IN " rewrite would reach back into the text before it. No builder method writes a join's `filters`: a new join has none, and `on`/`orOn` write `filterAnd`/`filterOr`, which are not rendered.
- `UpdateBuilders.UpdateBuilder.Set`: `set(_:as:)` and `set(_:to:as:)` build a `Raw` with a cast type into the `[DBRaw]` field `sets`. `serialize` renders no cast, so the model drops it.
- `UpdateBuilders.UpdateBuilder.With` and `DeleteBuilders.DeleteBuilder.With`: the source assigns one `DBRaw` to a list-typed field. The model makes it the only WITH fragment.
- `space`, the schema namespace, is read by the select builder's `join` and the delete builder's `using`, but neither class declares it. It is a constant of those builders.
- `InsertBuilders.InsertBuilder`: `onConflict`, `setsForUpdate` and `isDoNothing` are written by the clause methods but not declared in `DBInsertBuilder.swift`. `serialize` never reads them, so no ON CONFLICT clause is rendered, as written.
- Column names that are passed as `Column` where the source expects a `String` are rendered by their key. This concerns the update filters and `returning` (Update/DBUpdateBuilder+Predicate.swift, Update/DBUpdateBuilder+Clause.swift:40), the delete filters and `returning` (Delete/DBDeleteBuilder+Predicate.swift, Delete/DBDeleteBuilder+Clause.swift:59), the join conditions `on`/`orOn` (Select/DBSelectBuilder+Join.swift), and the insert `fields`, `returning`, `onConflict`, `set` overloads and `doUpdateSet` (Insert/DBInsertBuilder+Clause.swift:28-139). The select `groupBy`/`sort` and the update `set` overloads pass the key themselves.
- `DBQueryFetcher`, `RawBuilder`, the sessions and middleware, and the schema helpers are outside the statement builders and are not modelled.
