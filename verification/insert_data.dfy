/** The `insert` change (Liquibase's `InsertDataChange`): a target table and an ordered list of
    column declarations, planned into one insert statement. */
module InsertData {
  import opened Wrappers
  import opened Columns
  import opened Statements
  import JavaText

  /** The change's state. Catalog, schema and table are Java strings and may be null. */
  datatype InsertDataChange = InsertDataChange(
    catalogName: Option<string>,
    schemaName: Option<string>,
    tableName: Option<string>,
    columns: seq<ColumnConfig>)

  const ConfirmationPrefix := "New row inserted into "

  /** A new change holds an empty column list. */
  function Init(): (change: InsertDataChange)
    ensures change.columns == []
    ensures change.catalogName.None? && change.schemaName.None? && change.tableName.None?
  {
    InsertDataChange(None, None, None, [])
  }

  /** `addColumn`: the column goes to the end; earlier entries and the other fields are kept. */
  function AddColumn(change: InsertDataChange, column: ColumnConfig): (r: InsertDataChange)
    ensures |r.columns| == |change.columns| + 1
    ensures r.columns[..|change.columns|] == change.columns
    ensures r.columns[|change.columns|] == column
    ensures r.catalogName == change.catalogName && r.schemaName == change.schemaName
    ensures r.tableName == change.tableName
  {
    change.(columns := change.columns + [column])
  }

  /** `removeColumn`: the first equal column is dropped, if there is one; nothing else changes. */
  function RemoveColumn(change: InsertDataChange, column: ColumnConfig): (r: InsertDataChange)
    ensures column !in change.columns ==> r == change
    ensures column in change.columns ==>
      var i := FirstIndex(change.columns, column);
      r.columns == change.columns[..i] + change.columns[i + 1..]
    ensures multiset(r.columns) == multiset(change.columns) - multiset{column}
    ensures r.catalogName == change.catalogName && r.schemaName == change.schemaName
    ensures r.tableName == change.tableName
  {
    RemoveFirstMultiset(change.columns, column);
    change.(columns := RemoveFirst(change.columns, column))
  }

  /** The plain path leaves a column out exactly when the database generates auto-increment
      values and the column's flag is set to true; its value is not looked at. */
  predicate Skipped(column: ColumnConfig, supportsAutoIncrement: bool)
  {
    supportsAutoIncrement && column.autoIncrement == Some(true)
  }

  /** The pairs of a plain insert: the columns that are not skipped, in order. */
  function InsertValues(columns: seq<ColumnConfig>, supportsAutoIncrement: bool): seq<ColumnValue>
  {
    if |columns| == 0 then
      []
    else
      (if Skipped(columns[0], supportsAutoIncrement) then [] else [ValueOf(columns[0])])
      + InsertValues(columns[1..], supportsAutoIncrement)
  }

  /** The number of columns whose auto-increment flag is set to true. */
  function CountAutoIncrement(columns: seq<ColumnConfig>): nat
  {
    if |columns| == 0 then 0
    else (if columns[0].autoIncrement == Some(true) then 1 else 0) + CountAutoIncrement(columns[1..])
  }

  /** Filtering is done column by column: the pairs of a concatenation are the concatenation of
      the pairs, so the relative order of the kept columns is preserved. */
  lemma {:induction false} InsertValuesAppend(a: seq<ColumnConfig>, b: seq<ColumnConfig>, supportsAutoIncrement: bool)
    ensures InsertValues(a + b, supportsAutoIncrement)
         == InsertValues(a, supportsAutoIncrement) + InsertValues(b, supportsAutoIncrement)
  {
    if |a| == 0 {
      assert a + b == b;
    } else {
      assert (a + b)[0] == a[0];
      assert (a + b)[1..] == a[1..] + b;
      InsertValuesAppend(a[1..], b, supportsAutoIncrement);
    }
  }

  /** The pair count is the column count less the skipped auto-increment columns, which are
      only skipped when the database supports auto-increment. */
  lemma {:induction false} InsertValuesCount(columns: seq<ColumnConfig>, supportsAutoIncrement: bool)
    ensures |InsertValues(columns, supportsAutoIncrement)|
         == |columns| - (if supportsAutoIncrement then CountAutoIncrement(columns) else 0)
  {
    if |columns| > 0 {
      InsertValuesCount(columns[1..], supportsAutoIncrement);
    }
  }

  /** A pair appears in the plain insert exactly when it is the unaltered (name, value object) of
      a column of the input that is not skipped. */
  lemma {:induction false} InsertValuesMembers(columns: seq<ColumnConfig>, supportsAutoIncrement: bool)
    ensures forall v :: v in InsertValues(columns, supportsAutoIncrement) <==>
      exists c :: c in columns && !Skipped(c, supportsAutoIncrement) && v == ValueOf(c)
  {
    if |columns| > 0 {
      var rest := columns[1..];
      InsertValuesMembers(rest, supportsAutoIncrement);
      assert columns == [columns[0]] + rest;
      forall v
        ensures v in InsertValues(columns, supportsAutoIncrement) <==>
          exists c :: c in columns && !Skipped(c, supportsAutoIncrement) && v == ValueOf(c)
      {
        if v in InsertValues(columns, supportsAutoIncrement) && v !in InsertValues(rest, supportsAutoIncrement) {
          assert !Skipped(columns[0], supportsAutoIncrement) && v == ValueOf(columns[0]);
        }
        if exists c :: c in columns && !Skipped(c, supportsAutoIncrement) && v == ValueOf(c) {
          var c :| c in columns && !Skipped(c, supportsAutoIncrement) && v == ValueOf(c);
          if c != columns[0] {
            assert c in rest;
          }
        }
      }
    }
  }

  /** The plain insert keeps every column, each as its own pair in order, exactly when the
      database does not support auto-increment or no column has its flag set to true. */
  lemma {:induction false} InsertValuesKeepsAll(columns: seq<ColumnConfig>, supportsAutoIncrement: bool)
    ensures InsertValues(columns, supportsAutoIncrement) == ValuesOf(columns)
        <==> !supportsAutoIncrement || CountAutoIncrement(columns) == 0
  {
    if |columns| > 0 {
      InsertValuesKeepsAll(columns[1..], supportsAutoIncrement);
      assert ValuesOf(columns) == [ValueOf(columns[0])] + ValuesOf(columns[1..]);
      if supportsAutoIncrement && CountAutoIncrement(columns) > 0 {
        InsertValuesCount(columns, supportsAutoIncrement);
      }
    }
  }

  /** `generateStatements`: one statement. With a large object among the columns it is a prepared
      insert over the whole, unfiltered column list; otherwise a plain insert of the kept pairs. */
  method GenerateStatements(change: InsertDataChange, database: Database) returns (statements: seq<Statement>)
    ensures |statements| == 1
    ensures statements[0].PreparedInsert? <==> NeedsPrepared(change.columns)
    ensures NeedsPrepared(change.columns) ==>
      statements[0] == PreparedInsert(database, change.catalogName, change.schemaName,
                                      change.tableName, change.columns)
    ensures !NeedsPrepared(change.columns) ==>
      statements[0] == PlainInsert(change.catalogName, change.schemaName, change.tableName,
                                   InsertValues(change.columns, database.supportsAutoIncrement))
    ensures !NeedsPrepared(change.columns) ==>
      |statements[0].values| == |change.columns|
        - (if database.supportsAutoIncrement then CountAutoIncrement(change.columns) else 0)
  {
    var needsPrepared := ScanForLobs(change.columns);
    if needsPrepared {
      return [PreparedInsert(database, change.catalogName, change.schemaName,
                             change.tableName, change.columns)];
    }

    var columns := change.columns;
    var values: seq<ColumnValue> := [];
    for i := 0 to |columns|
      invariant values == InsertValues(columns[..i], database.supportsAutoIncrement)
    {
      assert columns[..i + 1] == columns[..i] + [columns[i]];
      InsertValuesAppend(columns[..i], [columns[i]], database.supportsAutoIncrement);
      if database.supportsAutoIncrement && columns[i].autoIncrement.Some? && columns[i].autoIncrement.value {
        continue;
      }
      values := values + [ValueOf(columns[i])];
    }
    assert columns[..|columns|] == columns;
    InsertValuesCount(columns, database.supportsAutoIncrement);
    statements := [PlainInsert(change.catalogName, change.schemaName, change.tableName, values)];
  }

  /** `getConfirmationMessage`: the fixed prefix followed by the table name as Java renders it. */
  function ConfirmationMessage(change: InsertDataChange): (message: string)
    ensures |message| == |ConfirmationPrefix| + |JavaText.Render(change.tableName)|
    ensures message[..|ConfirmationPrefix|] == ConfirmationPrefix
    ensures change.tableName.Some? ==> message[|ConfirmationPrefix|..] == change.tableName.value
    ensures change.tableName.None? ==> message[|ConfirmationPrefix|..] == "null"
  {
    JavaText.Concat(ConfirmationPrefix, change.tableName)
  }
}
