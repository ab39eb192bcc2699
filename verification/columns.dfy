/** A column declaration of a data change (Liquibase's `ColumnConfig`) and the operations the
    insert and update changes perform on their ordered column lists. */
module Columns {
  import opened Wrappers

  /** What `ColumnConfig.getValueObject()` resolves to. The planner never inspects it; it only
      carries it from the column into the statement, so the cases are kept coarse. */
  datatype ValueObject =
    | NullValue
    | Text(text: string)
    | Numeric(number: int)
    | Boolean(flag: bool)
    | Date(date: string)
    | Computed(expression: string)

  /** One column declaration. `blob` and `clob` are the large-object values (a null reference is
      `None`); `autoIncrement` is the tri-state `Boolean` flag (unset is `None`). */
  datatype ColumnConfig = ColumnConfig(
    name: string,
    value: ValueObject,
    blob: Option<string>,
    clob: Option<string>,
    autoIncrement: Option<bool>)

  /** A (column name, value object) pair as a plain insert or update statement records it. */
  datatype ColumnValue = ColumnValue(name: string, value: ValueObject)

  /** The pair a plain statement records for a column: its name and its value object, unaltered. */
  function ValueOf(column: ColumnConfig): ColumnValue
  {
    ColumnValue(column.name, column.value)
  }

  /** The pairs of every column, in order. */
  function ValuesOf(columns: seq<ColumnConfig>): seq<ColumnValue>
  {
    seq(|columns|, i requires 0 <= i < |columns| => ValueOf(columns[i]))
  }

  /** A column carries a large object: a non-null BLOB or a non-null CLOB value. */
  predicate HasLob(column: ColumnConfig)
  {
    column.blob.Some? || column.clob.Some?
  }

  /** Both changes switch to a prepared statement exactly when some column carries a large object. */
  predicate NeedsPrepared(columns: seq<ColumnConfig>)
  {
    exists i | 0 <= i < |columns| :: HasLob(columns[i])
  }

  /** The large-object scan both changes run before choosing a statement shape: every column is
      visited, and the blob test and the clob test each raise the flag. */
  method ScanForLobs(columns: seq<ColumnConfig>) returns (needsPrepared: bool)
    ensures needsPrepared <==> NeedsPrepared(columns)
    ensures needsPrepared <==>
      (exists i | 0 <= i < |columns| :: columns[i].blob.Some?)
      || (exists i | 0 <= i < |columns| :: columns[i].clob.Some?)
  {
    needsPrepared := false;
    for i := 0 to |columns|
      invariant needsPrepared <==> exists j | 0 <= j < i :: HasLob(columns[j])
    {
      if columns[i].blob.Some? {
        needsPrepared := true;
      }
      if columns[i].clob.Some? {
        needsPrepared := true;
      }
    }
  }

  /** The decision over a concatenated list is the disjunction of the decisions over its parts. */
  lemma NeedsPreparedAppend(a: seq<ColumnConfig>, b: seq<ColumnConfig>)
    ensures NeedsPrepared(a + b) <==> NeedsPrepared(a) || NeedsPrepared(b)
  {
    if NeedsPrepared(a + b) {
      var i :| 0 <= i < |a + b| && HasLob((a + b)[i]);
      if i < |a| {
        assert HasLob(a[i]);
      } else {
        assert HasLob(b[i - |a|]);
      }
    }
    if NeedsPrepared(a) {
      var i :| 0 <= i < |a| && HasLob(a[i]);
      assert (a + b)[i] == a[i];
    }
    if NeedsPrepared(b) {
      var i :| 0 <= i < |b| && HasLob(b[i]);
      assert (a + b)[|a| + i] == b[i];
    }
  }

  /** The order of the columns does not affect the decision: any rearrangement of the same
      columns takes the same path. */
  lemma NeedsPreparedPermutation(a: seq<ColumnConfig>, b: seq<ColumnConfig>)
    requires multiset(a) == multiset(b)
    ensures NeedsPrepared(a) <==> NeedsPrepared(b)
  {
    if NeedsPrepared(a) {
      var i :| 0 <= i < |a| && HasLob(a[i]);
      assert a[i] in multiset(b);
      var j :| 0 <= j < |b| && b[j] == a[i];
    }
    if NeedsPrepared(b) {
      var j :| 0 <= j < |b| && HasLob(b[j]);
      assert b[j] in multiset(a);
      var i :| 0 <= i < |a| && a[i] == b[j];
    }
  }

  /** The position of the first column equal to `column`. */
  function FirstIndex(columns: seq<ColumnConfig>, column: ColumnConfig): (i: nat)
    requires column in columns
    ensures i < |columns| && columns[i] == column
    ensures column !in columns[..i]
  {
    if columns[0] == column then
      0
    else
      assert column in columns[1..];
      var j := FirstIndex(columns[1..], column);
      assert columns[..j + 1] == [columns[0]] + columns[1..][..j];
      j + 1
  }

  /** `List.remove(Object)`: drops the first column equal to `column`, if there is one, and keeps
      every other column in its order. */
  function RemoveFirst(columns: seq<ColumnConfig>, column: ColumnConfig): (r: seq<ColumnConfig>)
    ensures column !in columns ==> r == columns
    ensures column in columns ==>
      r == columns[..FirstIndex(columns, column)] + columns[FirstIndex(columns, column) + 1..]
  {
    if |columns| == 0 then
      []
    else if columns[0] == column then
      columns[1..]
    else
      var rest := RemoveFirst(columns[1..], column);
      assert columns == [columns[0]] + columns[1..];
      assert column in columns[1..] ==>
        var i := FirstIndex(columns[1..], column);
        && FirstIndex(columns, column) == i + 1
        && columns[..i + 1] == [columns[0]] + columns[1..][..i]
        && columns[i + 2..] == columns[1..][i + 1..];
      [columns[0]] + rest
  }

  /** Removing takes away exactly one occurrence of the column, or none when it is absent. */
  lemma RemoveFirstMultiset(columns: seq<ColumnConfig>, column: ColumnConfig)
    ensures multiset(RemoveFirst(columns, column)) == multiset(columns) - multiset{column}
  {
    if column in columns {
      var i := FirstIndex(columns, column);
      assert columns == columns[..i] + [columns[i]] + columns[i + 1..];
    }
  }

  /** Appending a column and then removing it gives back the original list when the column was
      not already present. */
  lemma RemoveAfterAppend(columns: seq<ColumnConfig>, column: ColumnConfig)
    requires column !in columns
    ensures RemoveFirst(columns + [column], column) == columns
  {
  }

  /** Appending a column forces the prepared path exactly when the list already needed it or the
      new column carries a large object. */
  lemma AppendNeedsPrepared(columns: seq<ColumnConfig>, column: ColumnConfig)
    ensures NeedsPrepared(columns + [column]) <==> NeedsPrepared(columns) || HasLob(column)
  {
    NeedsPreparedAppend(columns, [column]);
    assert NeedsPrepared([column]) <==> HasLob([column][0]);
  }
}
