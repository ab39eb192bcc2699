/** The statement objects the data changes produce, and the one database capability they query. */
module Statements {
  import opened Wrappers
  import opened Columns

  /** The target database, reduced to the capability the insert planner consults. */
  datatype Database = Database(supportsAutoIncrement: bool)

  /** The four statement shapes. The prepared variants stand for
      `InsertExecutablePreparedStatement` / `UpdateExecutablePreparedStatement` and record the
      arguments they are constructed with; the plain variants stand for `InsertStatement` and
      `UpdateStatement` with the (name, value object) pairs added to them, in order. */
  datatype Statement =
    | PreparedInsert(database: Database, catalogName: Option<string>, schemaName: Option<string>,
                     tableName: Option<string>, columns: seq<ColumnConfig>)
    | PlainInsert(catalogName: Option<string>, schemaName: Option<string>,
                  tableName: Option<string>, values: seq<ColumnValue>)
    | PreparedUpdate(database: Database, catalogName: Option<string>, schemaName: Option<string>,
                     tableName: Option<string>, columns: seq<ColumnConfig>)
    | PlainUpdate(catalogName: Option<string>, schemaName: Option<string>,
                  tableName: Option<string>, newValues: seq<ColumnValue>, whereClause: Option<string>)
}
