# Liquibase insert/update data changes — statement planning in Dafny

This project models how Liquibase's `insert` and `update` data changes (`InsertDataChange`,
`UpdateDataChange`) turn a target table plus an ordered list of column declarations
(`ColumnConfig`) into exactly one SQL statement object.

- **Large-object scan.** Both changes first scan every column for a non-null BLOB or CLOB value.
  One shared predicate, `Columns.NeedsPrepared`, captures the decision. `Columns.ScanForLobs`
  is the scan loop itself.
- **Insert.** With a large object, the insert planner emits a prepared insert. It carries the
  database, catalog, schema, table and the whole column list. Otherwise it emits a plain insert
  of (name, value object) pairs in column order. A column is skipped exactly when the database
  supports auto-increment and the column's tri-state `autoIncrement` flag is `true`. The
  column's value is not consulted.
- **Update.** With a large object, the update planner emits a prepared update from catalog,
  schema, table and columns only, so the where clause is not passed on. Otherwise it emits a
  plain update with one new-value pair per column and the stored where clause attached verbatim.
  Nothing is skipped on this path.
- **Smaller operations.** The column-list editing operations (`addColumn`, `removeColumn`), the
  where-clause accessors and the confirmation messages are modelled too.

Modules:

- `Wrappers`: `Option`, which stands for Java's nullable references.
- `Columns`: `ColumnConfig`, the (name, value) pair, the large-object decision and `List.remove`.
- `Statements`: the `Database` capability and the four statement shapes.
- `JavaText`: Java's `+` applied to a string that may be null.
- `InsertData`, `UpdateData`: the two changes.

The Java objects are modelled with value semantics. `addColumn`, `removeColumn` and
`setWhereClause` return the updated change.

Two behaviours of the code are kept as written:

- The prepared update carries no where clause. `UpdateDataChange.java:94` passes only the
  database, catalog, schema, table and columns to `UpdateExecutablePreparedStatement`, so
  `PreparedUpdate` has no where-clause field.
- The insert skip tests only `supportsAutoIncrement()` and the column's flag
  (`InsertDataChange.java:107-108`), never the column's value, and so does `InsertData.Skipped`.

## Model

| member | source | states |
|---|---|---|
| Columns.ScanForLobs | liquibase-core/src/main/java/liquibase/change/core/InsertDataChange.java:83-94 | the scan raises its flag exactly when some column has a non-null blob or some column has a non-null clob, which is the shared `NeedsPrepared` decision |
| Columns.NeedsPreparedAppend | liquibase-core/src/main/java/liquibase/change/core/UpdateDataChange.java:82-90 | the decision over a concatenation is the disjunction of the decisions over the parts |
| Columns.NeedsPreparedPermutation | liquibase-core/src/main/java/liquibase/change/core/InsertDataChange.java:83-96 | any reordering of the same columns takes the same path, so column order does not affect the decision |
| Columns.AppendNeedsPrepared | liquibase-core/src/main/java/liquibase/change/core/InsertDataChange.java:73-96 | after appending a column, the prepared path is taken iff it was taken before or the new column carries a large object |
| Columns.RemoveFirst | liquibase-core/src/main/java/liquibase/change/core/InsertDataChange.java:77-79 | removal drops the first equal column and keeps the rest in order; with no equal column the list is unchanged |
| Columns.RemoveFirstMultiset | liquibase-core/src/main/java/liquibase/change/core/UpdateDataChange.java:68-70 | removal takes away exactly one occurrence of the column, or none if it is absent |
| Columns.RemoveAfterAppend | liquibase-core/src/main/java/liquibase/change/core/InsertDataChange.java:73-79 | removing a freshly appended column that was not already present restores the original list |
| InsertData.Init | liquibase-core/src/main/java/liquibase/change/core/InsertDataChange.java:33-35 | a new insert change starts with an empty column list and null catalog, schema and table |
| InsertData.AddColumn | liquibase-core/src/main/java/liquibase/change/core/InsertDataChange.java:73-75 | the column is appended at the end, earlier entries are unchanged, and catalog, schema and table are kept |
| InsertData.RemoveColumn | liquibase-core/src/main/java/liquibase/change/core/InsertDataChange.java:77-79 | the first equal column is removed and the others keep their order; an absent column leaves the change unchanged; the other fields are kept |
| InsertData.GenerateStatements | liquibase-core/src/main/java/liquibase/change/core/InsertDataChange.java:81-118 | returns exactly one statement; it is prepared iff `NeedsPrepared`; the prepared one carries the database, catalog, schema, table and the unfiltered column list; the plain one targets the same table and holds the kept pairs, whose count is the column count minus the skipped auto-increment columns |
| InsertData.InsertValuesAppend | liquibase-core/src/main/java/liquibase/change/core/InsertDataChange.java:105-114 | the plain pairs of a concatenation are the concatenation of the plain pairs, so kept columns stay in their original order |
| InsertData.InsertValuesCount | liquibase-core/src/main/java/liquibase/change/core/InsertDataChange.java:105-111 | pair count = column count minus the columns flagged `true`, and only when the database supports auto-increment; with no support the count equals the column count |
| InsertData.InsertValuesMembers | liquibase-core/src/main/java/liquibase/change/core/InsertDataChange.java:105-113 | a pair appears iff it is the unaltered (name, value object) of some non-skipped input column |
| InsertData.InsertValuesKeepsAll | liquibase-core/src/main/java/liquibase/change/core/InsertDataChange.java:107-108 | the plain insert keeps every column, one pair each in order, iff the database lacks auto-increment support or no flag is `true`; a null or false flag never skips |
| InsertData.ConfirmationMessage | liquibase-core/src/main/java/liquibase/change/core/InsertDataChange.java:123-125 | the message is "New row inserted into " followed by the table name, or by "null" when the name is null |
| JavaText.Concat | liquibase-core/src/main/java/liquibase/change/core/InsertDataChange.java:124 | the concatenation starts with the prefix and continues with the string, or with "null" for a null string |
| JavaText.ConcatInjective | liquibase-core/src/main/java/liquibase/change/core/UpdateDataChange.java:112 | two confirmation messages agree iff the rendered names agree, so a null table name and the name "null" give the same message |
| UpdateData.Init | liquibase-core/src/main/java/liquibase/change/core/UpdateDataChange.java:24-26 | a new update change starts with an empty column list and null catalog, schema, table and where clause |
| UpdateData.AddColumn | liquibase-core/src/main/java/liquibase/change/core/UpdateDataChange.java:64-66 | the column is appended at the end, earlier entries are unchanged, and the other fields, including the where clause, are kept |
| UpdateData.RemoveColumn | liquibase-core/src/main/java/liquibase/change/core/UpdateDataChange.java:68-70 | the first equal column is removed and the others keep their order; an absent column leaves the change unchanged; the other fields are kept |
| UpdateData.SetWhereClause | liquibase-core/src/main/java/liquibase/change/core/UpdateDataChange.java:72-78 | `GetWhereClause` (the getter, lines 72-74) after setting `w` returns `w`, and catalog, schema, table and columns are unchanged |
| UpdateData.WhereClauseLaws | liquibase-core/src/main/java/liquibase/change/core/UpdateDataChange.java:72-78 | setting the stored clause is a no-op, and a second set overrides the first |
| UpdateData.GenerateStatements | liquibase-core/src/main/java/liquibase/change/core/UpdateDataChange.java:80-109 | returns exactly one statement; it is prepared iff `NeedsPrepared`; the prepared one is built from database, catalog, schema, table and columns with no where clause; the plain one has one pair per column in order and the stored where clause unchanged, null included; unlike the insert nothing is skipped, so the pairs equal a plain insert's for the same columns iff that insert would skip nothing |
| UpdateData.ConfirmationMessage | liquibase-core/src/main/java/liquibase/change/core/UpdateDataChange.java:111-113 | the message is "Data updated in " followed by the table name, or by "null" when the name is null |

## Left out

- The annotations `@DatabaseChange`, `@DatabaseChangeProperty` and `@TextNode` are left out. They are metadata for documentation and validation tooling, not planning logic.
- The internals of `InsertExecutablePreparedStatement` and `UpdateExecutablePreparedStatement` are not modelled. These are JDBC binding and LOB streaming. The prepared statements are constructors that record their arguments.
- `Database` is reduced to `supportsAutoIncrement()`. Dialect-specific SQL rendering is external.
- `ColumnConfig.getValueObject()` value resolution and the BLOB/CLOB value types are not modelled. `ValueObject` is a coarse stand-in for the resolved value (its `Numeric` case narrows Java's `Number`/`BigDecimal` to an integer); the planner never inspects it and only carries it from the column into the statement. The large-object values are modelled only as present or null.
- `InsertStatement` and `UpdateStatement` are not part of this model. They are modelled as their ordered list of added pairs. Any keying by column name inside those classes is not represented.
- The commented-out Informix branch of the insert scan is left out because it has no effect.
- The plain getters and setters for catalog, schema, table and columns are not modelled as operations. They are the datatype's fields, read directly or replaced by record update.
- Java list aliasing is not modelled. In the source, `getColumns` returns the live list and `setColumns` stores the caller's list. The model uses value semantics, and a `null` column list is not representable.
- Null column entries and a null database are not representable: `ColumnConfig` and `Database` values here always exist. In the source, `addColumn(null)` leaves a null entry on which `generateStatements` throws a `NullPointerException` at the blob test (`InsertDataChange.java:85`, `UpdateDataChange.java:84`), and a null database makes the insert throw at `InsertDataChange.java:107` when the column list is non-empty and has no large object.
- Columns.RemoveFirst: uses structural equality of column declarations. The source's `List.remove` uses `ColumnConfig.equals`, which is not part of this model.
- Required-field validation is not modelled. This covers a missing table name and duplicate column names. Neither is enforced by these classes.
