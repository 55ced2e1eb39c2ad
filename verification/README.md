# dbutil statement assembly, in Dafny

A model of the SQL-text and argument assembly layer of the Go package
`dbutil` (minetest-go). Each CRUD helper of a `DBUtil` joins the entity's
table name, its ordered column list, the dialect's placeholders and a
caller-written clause into one statement, and pairs it with an ordered
argument list, then hands that statement to the database handle once.

The model has three layers:

- **Pure builders.** `BuildInsert`, `BuildInsertOrReplace`, `InsertReturningText`,
  `BuildUpdate`, `BuildCount`, `BuildDelete` and `BuildSelect` map
  (dialect, entity data, clauses, parameters) to a `Statement(sql, args)`.
- **Runs.** `Insert`, `Update`, `Count`, `Select`, `SelectMulti`,
  `PrepareInsert` and the others take a `DBUtil` whose `db` is an executor.
  The executor is a record of uninterpreted response functions. Each run
  returns the Go results together with the trace of requests it made on the
  handle.
- **A placeholder yardstick.** `Placeholders.Ordinals` is a simplified reading
  of a statement text's numbered placeholders: scanning character by
  character, a sigil followed by a run of decimal digits names an argument
  ordinal. Real drivers accept more forms and skip quoted text (see
  "Left out"). The builders are proved against this reading. Examples:
  - insert texts read as ordinals 1..n;
  - count texts read as 1..P;
  - update texts read as P+1..P+U followed by 1..P, which names every argument
    exactly once.

`fmt.Sprintf` is modelled only as the package uses it on caller text: a
template whose every `%` opens a `%s` marker, with one string argument per
marker (`Format.Sprintf`). `Format.Segments` is its partner definition: it
splits a template into the text between markers. Every formatted result is
proved to be those segments with the arguments between them.

The dialect is a two-valued datatype. `SQLite` uses `?` and `Postgres` stands
for every other dialect, which all use `$`.

Select and Delete pass the caller's constraint into the text verbatim. Count
and Update rewrite its `%s` markers into placeholders. The package's own tests
and the comment at dbutil_test.go:74 call Select and Delete with `%s`
templates, as if those were rewritten too. The model follows the code, not
that expectation. `Deleting.DeleteLeavesMarkersUnbound`,
`Selecting.SelectOrdinals` and `Deleting.DeleteUnlikeCount` state the
difference as properties.

## Model

| member | source | states |
|---|---|---|
| DbUtil.New | dbutil.go:13-19 | the handle keeps the executor, the dialect and the entity provider exactly as given |
| DbUtil.BindParam | dbutil.go:21-27 | a placeholder starts with `?` for SQLite and with `$` for every other dialect, and has at least one character after the sigil |
| DbUtil.BindParamReadsBack | dbutil.go:21-27 | the text after the sigil is the `%d` text of the ordinal: decimal text without a leading zero that parses back to the ordinal, and exactly the ordinal's digits when it is not negative |
| DbUtil.BindParams | dbutil.go:30-33 | the loop's list holds one placeholder per ordinal, the k-th for ordinal from+k |
| DbUtil.BindParamInjective | dbutil.go:22-26 | within one dialect, two ordinals give the same placeholder only if they are equal |
| DbUtil.BindParamDialectsDiffer | dbutil.go:22-26 | a SQLite placeholder never equals a placeholder of another dialect |
| Text.Decimal | dbutil.go:24 | the `%d` text of an integer is non-empty, reads back as that integer, and starts with a minus sign exactly when the integer is negative |
| Text.DecimalIsText | dbutil.go:24 | the `%d` text has no leading zero and no minus sign in front of zero |
| Text.DecimalCanonical | dbutil.go:24 | every decimal text without a leading zero is the `%d` text of the integer it reads as, so `%d` writes the only such text of each integer |
| Text.DecimalInjective | dbutil.go:24 | different integers have different `%d` texts |
| Text.NatDigits | dbutil.go:24 | the digits of a natural number are non-empty decimal digits without a leading zero, start with `0` only for zero, and their value is the number |
| Text.NatDigitsUnique | dbutil.go:24 | digits without a leading zero are the digits of their own value |
| Text.JoinAppend | insert.go:17 | `strings.Join` of one part is that part, and joining one more part appends the separator and that part, so a join is the parts in order with the separator between neighbours |
| Text.JoinLength | insert.go:17 | the length of a join is the parts' total length plus one separator length per pair of neighbours; the join of no parts is empty |
| Format.SprintfLength | dbutil.go:34 | the formatted length is the template's length, less two per marker, plus the arguments' total length |
| Format.Segments | dbutil.go:34 | a template splits into one more marker-free segment than it has markers, and putting markers back between the segments gives the template again |
| Format.SprintfSegments | dbutil.go:34 | formatting a template puts the k-th argument where the k-th marker was and keeps every segment between markers unchanged |
| Format.SprintfInterleave | dbutil.go:34 | for any marker-free segments, formatting their join with markers gives the same segments joined by the arguments |
| Format.SegmentsOfInterleave | dbutil.go:34 | splitting a template written from marker-free segments gives back exactly those segments |
| DbUtil.FormatBindParams | dbutil.go:29-35 | the result is the fragment's marker-free segments with the placeholders for ordinals 1..n between them, left to right; with no markers the fragment comes back unchanged |
| DbUtil.FormatBindParamsMarkers | dbutil.go:29-35 | for a fragment made of marker-free segments and n markers, the k-th marker becomes the placeholder for ordinal k and every segment survives |
| DbUtil.FormatBindParamsLacksPercent | dbutil.go:29-35 | no `%` is left in a formatted fragment |
| DbUtil.FormatBindParamsIdentity | dbutil.go:29-35 | a fragment without `%` is a template with no markers and is returned unchanged |
| DbUtil.FormatBindParamsExample | dbutil_test.go:181-189 | `where x = %s and y = %s` with two parameters becomes `where x = ?1 and y = ?2` for SQLite and `where x = $1 and y = $2` otherwise |
| Placeholders.OrdinalsOfBindParam | dbutil.go:21-27 | `Ordinals` reads a placeholder for a non-negative ordinal as exactly that ordinal |
| Placeholders.FormatBindParamsOrdinals | dbutil.go:29-35 | `Ordinals` reads a formatted fragment as ordinals 1..n in text order, when the fragment holds no sigil and no marker is directly followed by a digit |
| Inserting.BuildInsert | insert.go:15-18 | the insert text opens with `insert into` and ends with a space and the additional clauses joined by spaces; the arguments are exactly the entity's insert values |
| Inserting.BuildInsertOrReplace | insert.go:31-34 | the insert-or-replace statement has the insert statement's arguments, and its text is the insert text with the verb `insert into` replaced by `insert or replace into` |
| Inserting.InsertReturningText | insert.go:47-49 | the returning text is the insert text without additional clauses, followed by `returning` and the returned field |
| Inserting.Insert | insert.go:8-22 | one `Exec` of the insert statement, whose error is returned unchanged |
| Inserting.InsertOrdinals | insert.go:9-17 | the insert text holds exactly one placeholder per insert column, numbered 1..n in column order, whatever the number of values |
| Inserting.InsertTextIgnoresValues | insert.go:15-18 | the insert text depends on table, columns, dialect and clauses only, and the arguments are exactly the entity's insert values |
| Inserting.InsertOrReplace | insert.go:24-38 | one `Exec` of the insert-or-replace statement, whose error is returned unchanged |
| Inserting.InsertReturning | insert.go:40-59 | prepares the returning text first; when the prepare fails it returns that error and queries nothing; otherwise it runs the prepared text once with the insert values and returns the scanned value and the scan error |
| Inserting.InsertReturningPrepareFailure | insert.go:47-53 | a failed prepare ends the operation with that error, after the prepare request only |
| Updating.SetClauses | update.go:15-20 | one assignment per update column, in column order: column i is assigned the placeholder for ordinal from+i |
| Updating.UpdateText | update.go:22-24 | the update text opens with `update`, the table and `set`, and ends with a space and the formatted constraint |
| Updating.BuildUpdate | update.go:8-26 | the arguments are the caller's parameters followed by the first U update values, U the number of update columns; the update values must cover the update columns |
| Updating.Update | update.go:8-29 | one `Exec` of the update statement, whose error is returned unchanged |
| Updating.UpdateBindsColumns | update.go:12-19 | the assignment of update column i uses the placeholder for ordinal P+1+i, argument P+1+i is that column's update value, and arguments 1..P are the caller's parameters in order |
| Updating.UpdateOrdinals | update.go:12-24 | `Ordinals` reads the update text as ordinals P+1..P+U for the set list, then 1..P for the constraint |
| Updating.UpdateNamesEachArgumentOnce | update.go:12-26 | the update text holds one placeholder per argument, each naming an ordinal from 1 to the number of arguments, no two the same |
| Updating.UpdateWithoutParams | update.go:12-26 | without parameters a constraint without `%` is kept as written at the end of the text, and the arguments are only the update values |
| Counting.BuildCount | count.go:7-9 | the count text is the open text followed by the constraint's segments with the placeholders 1..P between them; the parameters are passed unchanged and in order |
| Counting.Count | count.go:5-12 | takes the table from a fresh provider entity, makes one single-row query, and returns the scanned integer with the scan error |
| Counting.CountOrdinals | count.go:7-9 | `Ordinals` reads the count text as ordinals 1..P, one per parameter, left to right |
| Counting.CountConsumesMarkers | count.go:7-9 | no `%` marker survives into the count text |
| Deleting.BuildDelete | delete.go:7-9 | the delete text is `delete from`, the table and a space, followed by the constraint exactly as written; the parameters are the arguments |
| Deleting.Delete | delete.go:5-12 | takes the table from a fresh provider entity, makes one `Exec`, and returns its error unchanged |
| Deleting.DeleteOrdinals | delete.go:8 | the delete text names exactly the placeholders the caller wrote |
| Deleting.DeleteLeavesMarkersUnbound | delete.go:7-9 | a constraint written with `%s` markers leaves the delete text without any placeholder while one argument per marker is still passed |
| Deleting.DeleteUnlikeCount | delete.go:8 | for a constraint with a marker, a `%` survives in the delete text but none survives in the count text built from the same constraint |
| Selecting.BuildSelect | select.go:11-14 | the select text is the select columns and table followed by the constraint exactly as written; the parameters are the arguments |
| Selecting.Select | select.go:9-18 | one single-row query with a fresh provider entity; returns the entity the scan filled and the scan error unchanged |
| Selecting.Drain | select.go:27-38 | the list is returned exactly when every row scanned, with one entity per row in row order; otherwise nil and the error of a failed row |
| Selecting.DrainStopsAtFirstFailure | select.go:28-33 | the error returned is that of the first failed row, whatever follows it |
| Selecting.DrainOfScannedRows | select.go:27-38 | rows that all scan give back exactly the scanned entities, in order, with no error |
| Selecting.SelectMulti | select.go:20-39 | one multi-row query with the same text as Select; a query error other than no-rows gives nil and that error, otherwise the rows are drained |
| Selecting.SelectMultiNoRows | select.go:20-39 | no rows and no error other than no-rows gives an empty, non-nil list and no error |
| Selecting.SelectAndSelectMultiOnNoRows | select.go:9-39 | a statement matching no row is an `ErrNoRows` error for Select and an empty list with no error for SelectMulti, and both send the same statement |
| Selecting.SelectOrdinals | select.go:11-13 | the select text names exactly the placeholders the caller wrote in the constraint |
| Preparing.PlaceholderList | prepare.go:11-14 | the slot-filling loop puts the placeholder for ordinal i+1 in slot i, giving the placeholders for 1..n |
| Preparing.PrepareInsert | prepare.go:8-28 | prepares the insert text of the provider entity once; on failure returns no handle and the error, otherwise a handle on that text and no error |
| Preparing.RunInsertHandle | prepare.go:24-27 | a run of the handle executes the prepared text with the given entity's insert values and returns the error unchanged |
| Preparing.HandleRunsAsInsert | prepare.go:16-18 | for an entity of the provider's table and insert columns, a run of the handle sends the statement Insert would execute |
| Preparing.HandleTextFixed | prepare.go:24-26 | every run uses the text fixed at preparation, with the run's own entity's insert values |
| Preparing.PreparedOrdinals | prepare.go:10-18 | the prepared text numbers its placeholders 1..n over the provider entity's insert columns |
| Preparing.PrepareFailure | prepare.go:20-22 | a failed prepare returns no handle, only the error |

## Left out

- Execution through `database/sql` and the driver (Exec, Query, QueryRow, Prepare, cursors, transactions) is an uninterpreted executor: each response is a function of the request alone. `DBTx` and `SQLDialect` are not part of this model beyond the two dialect values.
- SQL semantics (whether a text parses, which rows change) are not modelled; nothing is said about table contents.
- `fmt.Sprintf` beyond `%s` substitution (`%%`, other verbs, the `%!` annotations for a count mismatch) is not modelled. Every formatted caller fragment must have exactly one `%s` per parameter and no other `%`; this is a precondition of `FormatBindParams`, `BuildCount`, `Count`, `BuildUpdate` and `Update`.
- Updating.BuildUpdate: requires at least as many update values as update columns; the source indexes the values by column position and panics otherwise, and the panic is not modelled.
- Updating.Update: same precondition as `BuildUpdate`, for the same reason.
- Counting.Count: the returned integer is the value the scan left, as if the scan ran before the result was read; Go's evaluation order in `return count, row.Scan(&count)` is not modelled.
- Row scanning by reflection is not modelled: each row's scan outcome, and each single-row scan, arrives from the executor as a filled entity or value, or an error.
- `rows.Next` errors, `rows.Err` and closing rows or statements are not modelled: `SelectMulti` drains the rows the executor reports.
- A multi-row query reporting `ErrNoRows` is modelled as returning its (possibly empty) rows; Go would go on to call `Next` on a nil cursor, which is not modelled.
- Selecting.SelectMultiNoRows: its `ErrNoRows` case is the nil-cursor path above; only its no-error case matches what Go does.
- Concurrency and the lifetime of connections, transactions and the prepared statement are not modelled.
- Go's `any` arguments are the `Value` datatype; the package never inspects them.
- The test files are evidence only; only the two-marker formatting example (dbutil_test.go:181-189) is restated, as `FormatBindParamsExample`.
- `Placeholders.Ordinals` reads only numbered placeholders, a sigil followed by digits, by plain character scanning. SQLite also binds a bare `?` as the next ordinal and binds the named forms `:name`, `@name` and `$name`. Neither SQLite nor PostgreSQL counts a sigil inside a quoted literal, a quoted identifier or a comment, and PostgreSQL also skips dollar-quoted strings. None of this is modelled; the results about ordinals assume that table names, columns and caller text hold no sigil at all.
- Placeholders.FormatBindParamsOrdinals: stated only for fragments without a sigil and with no digit right after a marker, because `Ordinals` would otherwise read the caller's own text as further placeholders.
