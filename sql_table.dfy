/** One `CREATE TABLE` statement: `generateColumnDefinition` and `jsonToPostgresTable`. */
module SqlTable {
  import opened Wrappers
  import opened Seqs
  import opened JsonValues
  import opened Naming
  import opened SqlTypes

  /** The three switches; the only caller always passes all of them. */
  datatype Options = Options(addTimestamps: bool, addPrimaryKey: bool, useSnakeCase: bool)

  const PrimaryKeyColumn := "  id SERIAL PRIMARY KEY"
  const CreatedAtColumn := "  created_at TIMESTAMP DEFAULT CURRENT_TIMESTAMP"
  const UpdatedAtColumn := "  updated_at TIMESTAMP DEFAULT CURRENT_TIMESTAMP"

  /** A table or column name as stored: snake-cased when `useSnakeCase` is on. */
  function StorageName(name: string, options: Options): string
  {
    if options.useSnakeCase then ToSnakeCase(name) else name
  }

  /**
   * `  <name> <type>[ NOT NULL]`: the line ends in ` NOT NULL` exactly when the sample value
   * is not null (no inferred type ends in `L`, so a null sample's line cannot look like one).
   */
  function ColumnDefinition(columnName: string, value: Json, options: Options, parsesAsDate: string -> bool): (line: string)
    ensures EndsWith(line, " NOT NULL") <==> value != JNull
  {
    var t := InferPostgresType(value, parsesAsDate);
    var line := "  " + StorageName(columnName, options) + " " + t + (if value != JNull then " NOT NULL" else "");
    TypeLastChar(value, parsesAsDate);
    assert value == JNull ==> line[|line| - 1] == t[|t| - 1];
    line
  }

  /** One column per field, in entry order, except fields holding a non-empty array of objects. */
  function FieldColumns(es: seq<(string, Json)>, options: Options, parsesAsDate: string -> bool): seq<string>
  {
    if es == [] then []
    else
      (if IsArrayOfObjects(es[0].1) then [] else [ColumnDefinition(es[0].0, es[0].1, options, parsesAsDate)])
        + FieldColumns(es[1..], options, parsesAsDate)
  }

  function TableColumns(es: seq<(string, Json)>, options: Options, parsesAsDate: string -> bool): seq<string>
  {
    (if options.addPrimaryKey then [PrimaryKeyColumn] else [])
      + FieldColumns(es, options, parsesAsDate)
      + (if options.addTimestamps then [CreatedAtColumn, UpdatedAtColumn] else [])
  }

  function CreateTableSql(name: string, columns: seq<string>): string
  {
    "CREATE TABLE " + name + " (\n" + Join(columns, ",\n") + "\n);"
  }

  /** The statement for a table whose fields are the given entries. */
  function TableSql(tableName: string, es: seq<(string, Json)>, options: Options, parsesAsDate: string -> bool): string
  {
    CreateTableSql(StorageName(tableName, options), TableColumns(es, options, parsesAsDate))
  }

  /** `jsonToPostgresTable`: `Object.entries(null)` throws; any other value yields a statement. */
  function TableStatement(tableName: string, data: Json, options: Options, parsesAsDate: string -> bool): Result<string, Failure>
  {
    if data.JNull? then Err(EntriesOfNull) else Ok(TableSql(tableName, Entries(data), options, parsesAsDate))
  }

  /** The `forEach` over the fields: a column for each field that is not a non-empty array of objects. */
  method AddFieldColumns(columns0: seq<string>, entries: seq<(string, Json)>, options: Options, parsesAsDate: string -> bool)
    returns (columns: seq<string>)
    ensures columns == columns0 + FieldColumns(entries, options, parsesAsDate)
  {
    columns := columns0;
    var i := 0;
    assert entries[i..] == entries;
    while i < |entries|
      invariant 0 <= i <= |entries|
      invariant columns + FieldColumns(entries[i..], options, parsesAsDate) == columns0 + FieldColumns(entries, options, parsesAsDate)
    {
      var key := entries[i].0;
      var value := entries[i].1;
      var column := ColumnDefinition(key, value, options, parsesAsDate);
      ghost var piece := if IsArrayOfObjects(value) then [] else [column];
      ghost var rest := FieldColumns(entries[i + 1..], options, parsesAsDate);
      assert FieldColumns(entries[i..], options, parsesAsDate) == piece + rest by {
        assert entries[i..][0] == entries[i] && entries[i..][1..] == entries[i + 1..];
      }
      AppendAssoc(columns, piece, rest);
      ghost var before := columns;
      if !IsArrayOfObjects(value) {
        columns := columns + [column];
      }
      assert columns == before + piece;
      i := i + 1;
    }
    assert entries[i..] == [];
  }

  method JsonToPostgresTable(tableName: string, jsonData: Json, options: Options, parsesAsDate: string -> bool)
    returns (r: Result<string, Failure>)
    ensures r == TableStatement(tableName, jsonData, options, parsesAsDate)
  {
    var safeTableName := StorageName(tableName, options);
    var columns: seq<string> := [];
    if options.addPrimaryKey {
      columns := columns + [PrimaryKeyColumn];
    }
    if jsonData.JNull? {
      return Err(EntriesOfNull);
    }
    ghost var primaryKey := columns;
    ghost var fields := FieldColumns(Entries(jsonData), options, parsesAsDate);
    columns := AddFieldColumns(columns, Entries(jsonData), options, parsesAsDate);
    assert columns == primaryKey + fields;
    ghost var timestamps: seq<string> := if options.addTimestamps then [CreatedAtColumn, UpdatedAtColumn] else [];
    assert TableColumns(Entries(jsonData), options, parsesAsDate) == primaryKey + fields + timestamps;
    if options.addTimestamps {
      AppendAssoc(columns, [CreatedAtColumn], [UpdatedAtColumn]);
      assert [CreatedAtColumn] + [UpdatedAtColumn] == timestamps;
      columns := columns + [CreatedAtColumn];
      columns := columns + [UpdatedAtColumn];
    } else {
      assert columns + timestamps == columns;
    }
    r := Ok(CreateTableSql(safeTableName, columns));
  }

  /** Primary key, the kept fields, and two timestamp columns. */
  lemma {:induction false} FieldColumnCount(es: seq<(string, Json)>, options: Options, parsesAsDate: string -> bool)
    ensures |FieldColumns(es, options, parsesAsDate)| == |es| - Count(es, EntryIsArrayOfObjects)
  {
    if es != [] {
      FieldColumnCount(es[1..], options, parsesAsDate);
    }
  }

  lemma ColumnCount(es: seq<(string, Json)>, options: Options, parsesAsDate: string -> bool)
    ensures |TableColumns(es, options, parsesAsDate)| ==
      (if options.addPrimaryKey then 1 else 0)
      + (|es| - Count(es, EntryIsArrayOfObjects))
      + (if options.addTimestamps then 2 else 0)
    ensures options.addPrimaryKey ==> TableColumns(es, options, parsesAsDate)[0] == PrimaryKeyColumn
    ensures options.addTimestamps ==>
      var cs := TableColumns(es, options, parsesAsDate);
      cs[|cs| - 2] == CreatedAtColumn && cs[|cs| - 1] == UpdatedAtColumn
  {
    FieldColumnCount(es, options, parsesAsDate);
  }

  /** Every field that is not a non-empty array of objects has its column line. */
  lemma {:induction false} FieldColumnsHasField(es: seq<(string, Json)>, j: nat, options: Options, parsesAsDate: string -> bool)
    requires j < |es| && !IsArrayOfObjects(es[j].1)
    ensures ColumnDefinition(es[j].0, es[j].1, options, parsesAsDate) in FieldColumns(es, options, parsesAsDate)
  {
    if j > 0 {
      FieldColumnsHasField(es[1..], j - 1, options, parsesAsDate);
    }
  }
}
