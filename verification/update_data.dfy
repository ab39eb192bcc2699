/** The `update` change (Liquibase's `UpdateDataChange`): a target table, an ordered list of
    column declarations and a raw where clause, planned into one update statement. */
module UpdateData {
  import opened Wrappers
  import opened Columns
  import opened Statements
  import JavaText
  import InsertData

  /** The change's state. The where clause is unparsed text and may be null. */
  datatype UpdateDataChange = UpdateDataChange(
    catalogName: Option<string>,
    schemaName: Option<string>,
    tableName: Option<string>,
    columns: seq<ColumnConfig>,
    whereClause: Option<string>)

  const ConfirmationPrefix := "Data updated in "

  /** A new change holds an empty column list. */
  function Init(): (change: UpdateDataChange)
    ensures change.columns == []
    ensures change.catalogName.None? && change.schemaName.None? && change.tableName.None? && change.whereClause.None?
  {
    UpdateDataChange(None, None, None, [], None)
  }

  /** `addColumn`: the column goes to the end; earlier entries and the other fields are kept. */
  function AddColumn(change: UpdateDataChange, column: ColumnConfig): (r: UpdateDataChange)
    ensures |r.columns| == |change.columns| + 1
    ensures r.columns[..|change.columns|] == change.columns
    ensures r.columns[|change.columns|] == column
    ensures r.catalogName == change.catalogName && r.schemaName == change.schemaName
    ensures r.tableName == change.tableName && r.whereClause == change.whereClause
  {
    change.(columns := change.columns + [column])
  }

  /** `removeColumn`: the first equal column is dropped, if there is one; nothing else changes. */
  function RemoveColumn(change: UpdateDataChange, column: ColumnConfig): (r: UpdateDataChange)
    ensures column !in change.columns ==> r == change
    ensures column in change.columns ==>
      var i := FirstIndex(change.columns, column);
      r.columns == change.columns[..i] + change.columns[i + 1..]
    ensures multiset(r.columns) == multiset(change.columns) - multiset{column}
    ensures r.catalogName == change.catalogName && r.schemaName == change.schemaName
    ensures r.tableName == change.tableName && r.whereClause == change.whereClause
  {
    RemoveFirstMultiset(change.columns, column);
    change.(columns := RemoveFirst(change.columns, column))
  }

  function GetWhereClause(change: UpdateDataChange): Option<string>
  {
    change.whereClause
  }

  /** `setWhereClause`: a later `getWhereClause` returns exactly what was set, and no other field
      changes. */
  function SetWhereClause(change: UpdateDataChange, whereClause: Option<string>): (r: UpdateDataChange)
    ensures GetWhereClause(r) == whereClause
    ensures r.catalogName == change.catalogName && r.schemaName == change.schemaName
    ensures r.tableName == change.tableName && r.columns == change.columns
  {
    change.(whereClause := whereClause)
  }

  /** Setting the clause that is already stored changes nothing, and a second set overrides the
      first. */
  lemma WhereClauseLaws(change: UpdateDataChange, w1: Option<string>, w2: Option<string>)
    ensures SetWhereClause(change, GetWhereClause(change)) == change
    ensures SetWhereClause(SetWhereClause(change, w1), w2) == SetWhereClause(change, w2)
  {
  }

  /** `generateStatements`: one statement. With a large object among the columns it is a prepared
      update built from catalog, schema, table and the whole column list, and it carries no where
      clause; otherwise a plain update with one new-value pair per column, in order, and the stored
      where clause passed through unchanged. Unlike the insert, nothing is skipped: the pairs
      coincide with a plain insert's for the same columns exactly when that insert skips nothing. */
  method GenerateStatements(change: UpdateDataChange, database: Database) returns (statements: seq<Statement>)
    ensures |statements| == 1
    ensures statements[0].PreparedUpdate? <==> NeedsPrepared(change.columns)
    ensures NeedsPrepared(change.columns) ==>
      statements[0] == PreparedUpdate(database, change.catalogName, change.schemaName,
                                      change.tableName, change.columns)
    ensures !NeedsPrepared(change.columns) ==>
      statements[0] == PlainUpdate(change.catalogName, change.schemaName, change.tableName,
                                   ValuesOf(change.columns), change.whereClause)
    ensures !NeedsPrepared(change.columns) ==> |statements[0].newValues| == |change.columns|
    ensures !NeedsPrepared(change.columns) ==>
      (statements[0].newValues == InsertData.InsertValues(change.columns, database.supportsAutoIncrement)
       <==> !database.supportsAutoIncrement || InsertData.CountAutoIncrement(change.columns) == 0)
  {
    var needsPrepared := ScanForLobs(change.columns);
    if needsPrepared {
      return [PreparedUpdate(database, change.catalogName, change.schemaName,
                             change.tableName, change.columns)];
    }

    var columns := change.columns;
    var newValues: seq<ColumnValue> := [];
    for i := 0 to |columns|
      invariant |newValues| == i
      invariant forall j | 0 <= j < i :: newValues[j] == ValueOf(columns[j])
    {
      newValues := newValues + [ValueOf(columns[i])];
    }
    assert newValues == ValuesOf(columns);
    InsertData.InsertValuesKeepsAll(columns, database.supportsAutoIncrement);
    statements := [PlainUpdate(change.catalogName, change.schemaName, change.tableName,
                               newValues, change.whereClause)];
  }

  /** `getConfirmationMessage`: the fixed prefix followed by the table name as Java renders it. */
  function ConfirmationMessage(change: UpdateDataChange): (message: string)
    ensures |message| == |ConfirmationPrefix| + |JavaText.Render(change.tableName)|
    ensures message[..|ConfirmationPrefix|] == ConfirmationPrefix
    ensures change.tableName.Some? ==> message[|ConfirmationPrefix|..] == change.tableName.value
    ensures change.tableName.None? ==> message[|ConfirmationPrefix|..] == "null"
  {
    JavaText.Concat(ConfirmationPrefix, change.tableName)
  }
}
