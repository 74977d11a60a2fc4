/**
 * The whole SQL schema: `detectRelatedTables` and `convertJsonToPostgres`.
 * Tables are registered in discovery order; a nested table is registered only when no
 * table of that name exists yet, and then brings a foreign-key column and constraint.
 */
module SqlSchema {
  import opened Wrappers
  import opened Seqs
  import opened JsonValues
  import opened Tables
  import opened Naming
  import opened SqlTypes
  import opened SqlTable

  const ErrorPrefix := "Failed to parse JSON: "
  const IndexHeader := "\n-- Indexes for better query performance"

  /** The message of each thrown error; the null case is V8's TypeError text. */
  function Message(f: Failure): string
  {
    match f
    case EntriesOfNull => "Cannot convert undefined or null to object"
    case RootIsArray => "Please provide a JSON object or named objects, not an array at the root level"
    case RootNotObject => "Invalid JSON: Expected an object"
  }

  // ---------------------------------------------------------------- related tables

  /** One related table per field holding a non-empty array of objects (shape: element 0) or a nested object. */
  function RelatedTablesOf(es: seq<(string, Json)>): seq<TableSchema>
  {
    if es == [] then []
    else
      (if IsArrayOfObjects(es[0].1) then [TableSchema(es[0].0, es[0].1.elems[0])]
       else if IsNestedObject(es[0].1) then [TableSchema(es[0].0, es[0].1)]
       else [])
      + RelatedTablesOf(es[1..])
  }

  function RelatedTables(data: Json): Result<seq<TableSchema>, Failure>
  {
    if data.JNull? then Err(EntriesOfNull) else Ok(RelatedTablesOf(Entries(data)))
  }

  method DetectRelatedTables(jsonData: Json) returns (r: Result<seq<TableSchema>, Failure>)
    ensures r == RelatedTables(jsonData)
  {
    if jsonData.JNull? {
      return Err(EntriesOfNull);
    }
    var entries := Entries(jsonData);
    var relatedTables: seq<TableSchema> := [];
    var i := 0;
    while i < |entries|
      invariant 0 <= i <= |entries|
      invariant relatedTables + RelatedTablesOf(entries[i..]) == RelatedTablesOf(entries)
    {
      var key := entries[i].0;
      var value := entries[i].1;
      var found: seq<TableSchema> := [];
      if IsArrayOfObjects(value) {
        found := [TableSchema(key, value.elems[0])];
      } else if IsNestedObject(value) {
        found := [TableSchema(key, value)];
      }
      assert RelatedTablesOf(entries[i..]) == found + RelatedTablesOf(entries[i + 1..]) by {
        assert entries[i..][0] == entries[i] && entries[i..][1..] == entries[i + 1..];
      }
      AppendAssoc(relatedTables, found, RelatedTablesOf(entries[i + 1..]));
      relatedTables := relatedTables + found;
      i := i + 1;
    }
    assert relatedTables == RelatedTablesOf(entries) by {
      assert entries[i..] == [];
    }
    r := Ok(relatedTables);
  }

  /** Field `e` yields related table `t`. */
  ghost predicate RelatedEntry(e: (string, Json), t: TableSchema)
  {
    && t.tableName == e.0
    && ((IsArrayOfObjects(e.1) && t.fields == e.1.elems[0]) || (IsNestedObject(e.1) && t.fields == e.1))
  }

  lemma {:induction false} RelatedTablesMembers(es: seq<(string, Json)>, t: TableSchema)
    ensures t in RelatedTablesOf(es) <==> exists j :: 0 <= j < |es| && RelatedEntry(es[j], t)
  {
    if es != [] {
      RelatedTablesMembers(es[1..], t);
      if exists j :: 0 <= j < |es| && RelatedEntry(es[j], t) {
        var j :| 0 <= j < |es| && RelatedEntry(es[j], t);
        if j > 0 {
          assert es[1..][j - 1] == es[j];
        }
      }
      if exists j :: 0 <= j < |es[1..]| && RelatedEntry(es[1..][j], t) {
        var j :| 0 <= j < |es[1..]| && RelatedEntry(es[1..][j], t);
        assert es[j + 1] == es[1..][j];
      }
    }
  }

  lemma {:induction false} RelatedTablesCount(es: seq<(string, Json)>)
    ensures |RelatedTablesOf(es)| == Count(es, EntryIsArrayOfObjects) + Count(es, EntryIsNestedObject)
  {
    if es != [] {
      RelatedTablesCount(es[1..]);
    }
  }

  /**
   * No field is dropped: a field holding an array of objects becomes a table only, a
   * nested object both a JSONB column and a table, anything else a column only.
   */
  lemma FieldsBecomeColumnsOrTables(es: seq<(string, Json)>, options: Options, parsesAsDate: string -> bool)
    ensures |FieldColumns(es, options, parsesAsDate)| + |RelatedTablesOf(es)| == |es| + Count(es, EntryIsNestedObject)
  {
    FieldColumnCount(es, options, parsesAsDate);
    RelatedTablesCount(es);
  }

  // ---------------------------------------------------------------- registration

  /** The tables registered so far and the statements emitted so far. */
  datatype Registry = Registry(tables: seq<TableSchema>, statements: seq<string>)

  /** `{...fields, [`${parent}_id`]: 0}`, seen through `Object.entries`. */
  function RelatedFields(fields: Json, parentName: string): seq<(string, Json)>
  {
    WithEntry(Entries(fields), parentName + "_id", JNum(0.0))
  }

  /** The foreign-key constraint; its names are always snake-cased. */
  function ForeignKeySql(childName: string, parentName: string): string
  {
    var child := ToSnakeCase(childName);
    var parent := ToSnakeCase(parentName);
    "ALTER TABLE " + child
      + "\n  ADD CONSTRAINT fk_" + child + "_" + parent
      + "\n  FOREIGN KEY (" + parent + "_id)"
      + "\n  REFERENCES " + parent + "(id)"
      + "\n  ON DELETE CASCADE;"
  }

  function RegisterRelated(parentName: string, acc: Registry, t: TableSchema, options: Options, parsesAsDate: string -> bool): Registry
  {
    if Registered(acc.tables, t.tableName) then acc
    else
      Registry(
        acc.tables + [t],
        acc.statements
          + [TableSql(t.tableName, RelatedFields(t.fields, parentName), options, parsesAsDate)]
          + [ForeignKeySql(t.tableName, parentName)])
  }

  /** A table whose raw name is new adds itself, its statement and its foreign key. */
  lemma RegisterNew(parentName: string, acc: Registry, t: TableSchema, options: Options, parsesAsDate: string -> bool)
    requires !Registered(acc.tables, t.tableName)
    ensures RegisterRelated(parentName, acc, t, options, parsesAsDate)
      == Registry(acc.tables + [t],
                  acc.statements + [TableSql(t.tableName, RelatedFields(t.fields, parentName), options, parsesAsDate),
                                    ForeignKeySql(t.tableName, parentName)])
  {
  }

  /** A name is registered after appending a table exactly when it was before or is that table's. */
  lemma RegisteredAppend(tables: seq<TableSchema>, t: TableSchema, name: string)
    ensures Registered(tables + [t], name) <==> Registered(tables, name) || t.tableName == name
  {
    if Registered(tables + [t], name) {
      var i :| 0 <= i < |tables + [t]| && (tables + [t])[i].tableName == name;
      if i < |tables| {
        assert tables[i] == (tables + [t])[i];
      }
    }
    if Registered(tables, name) {
      var i :| 0 <= i < |tables| && tables[i].tableName == name;
      assert (tables + [t])[i] == tables[i];
    }
    if t.tableName == name {
      assert (tables + [t])[|tables|] == t;
    }
  }

  /** Two related tables with distinct raw names that are both new are both registered, in order. */
  lemma RegisterTwoNew(
    parentName: string, a: TableSchema, b: TableSchema, acc: Registry, options: Options, parsesAsDate: string -> bool)
    requires !Registered(acc.tables, a.tableName) && !Registered(acc.tables, b.tableName)
    requires a.tableName != b.tableName
    ensures RegisterAll(parentName, [a, b], acc, options, parsesAsDate)
      == Registry(acc.tables + [a, b],
                  acc.statements
                    + [TableSql(a.tableName, RelatedFields(a.fields, parentName), options, parsesAsDate), ForeignKeySql(a.tableName, parentName)]
                    + [TableSql(b.tableName, RelatedFields(b.fields, parentName), options, parsesAsDate), ForeignKeySql(b.tableName, parentName)])
  {
    RegisterPair(parentName, a, b, acc, options, parsesAsDate);
    RegisterNew(parentName, acc, a, options, parsesAsDate);
    RegisteredAppend(acc.tables, a, b.tableName);
    var first := RegisterRelated(parentName, acc, a, options, parsesAsDate);
    RegisterNew(parentName, first, b, options, parsesAsDate);
    assert acc.tables + [a] + [b] == acc.tables + [a, b];
  }

  /** Registering a two-table list is registering one table, then the other. */
  lemma RegisterPair(
    parentName: string, a: TableSchema, b: TableSchema, acc: Registry, options: Options, parsesAsDate: string -> bool)
    ensures RegisterAll(parentName, [a, b], acc, options, parsesAsDate)
      == RegisterRelated(parentName, RegisterRelated(parentName, acc, a, options, parsesAsDate), b, options, parsesAsDate)
  {
    var first := RegisterRelated(parentName, acc, a, options, parsesAsDate);
    calc {
      RegisterAll(parentName, [a, b], acc, options, parsesAsDate);
      { assert [a, b][0] == a && [a, b][1..] == [b]; }
      RegisterAll(parentName, [b], first, options, parsesAsDate);
      { assert [b][0] == b && [b][1..] == []; }
      RegisterAll(parentName, [], RegisterRelated(parentName, first, b, options, parsesAsDate), options, parsesAsDate);
    }
  }

  /**
   * Constraint names are not collision-free within one run: the duplicate check compares raw
   * names, but every emitted name is snake-cased. Under a parent `p`, the nested objects `aB`
   * and `a_b` are both registered and both get the constraint `fk_a_b_p`; with snake case on,
   * both also get `CREATE TABLE a_b`.
   */
  lemma RegisterAllNameCollision(options: Options, parsesAsDate: string -> bool)
    ensures var reg := RegisterAll("p", [TableSchema("aB", JObj([])), TableSchema("a_b", JObj([]))],
                                   Registry([TableSchema("p", JObj([]))], []), options, parsesAsDate);
      && |reg.tables| == 3
      && |reg.statements| == 4
      && reg.statements[1] == reg.statements[3] == ForeignKeySql("a_b", "p")
      && (options.useSnakeCase ==> reg.statements[0] == reg.statements[2])
  {
    SnakeCaseNotInjective();
    var parent := TableSchema("p", JObj([]));
    assert !Registered([parent], "aB") && !Registered([parent], "a_b") by {
      assert "p" != "aB" && "p" != "a_b";
    }
    RegisterTwoNew("p", TableSchema("aB", JObj([])), TableSchema("a_b", JObj([])), Registry([parent], []), options, parsesAsDate);
    assert options.useSnakeCase ==> StorageName("aB", options) == StorageName("a_b", options);
  }

  function RegisterAll(parentName: string, related: seq<TableSchema>, acc: Registry, options: Options, parsesAsDate: string -> bool): Registry
  {
    if related == [] then acc
    else RegisterAll(parentName, related[1..], RegisterRelated(parentName, acc, related[0], options, parsesAsDate), options, parsesAsDate)
  }

  /**
   * One top-level entry: an object is a table with its related tables; null fails
   * (`Object.entries(null)`); an array whose element 0 is object-typed is a table, and fails
   * when that element is null; anything else is skipped.
   */
  function EntryStep(acc: Registry, e: (string, Json), options: Options, parsesAsDate: string -> bool): (r: Result<Registry, Failure>)
    ensures r.Ok? <==> AcceptedTopLevel(e.1)
  {
    var (tableName, tableData) := e;
    if IsObjectType(tableData) && !tableData.JArr? then
      var created :- TableStatement(tableName, tableData, options, parsesAsDate);
      var related :- RelatedTables(tableData);
      Ok(RegisterAll(tableName, related,
        Registry(acc.tables + [TableSchema(tableName, tableData)], acc.statements + [created]), options, parsesAsDate))
    else if tableData.JArr? && |tableData.elems| > 0 && IsObjectType(tableData.elems[0]) then
      var created :- TableStatement(tableName, tableData.elems[0], options, parsesAsDate);
      Ok(Registry(acc.tables + [TableSchema(tableName, tableData.elems[0])], acc.statements + [created]))
    else
      Ok(acc)
  }

  function EntriesFold(es: seq<(string, Json)>, acc: Registry, options: Options, parsesAsDate: string -> bool): Result<Registry, Failure>
  {
    if es == [] then Ok(acc)
    else
      var next :- EntryStep(acc, es[0], options, parsesAsDate);
      EntriesFold(es[1..], next, options, parsesAsDate)
  }

  function IndexSql(tableName: string, options: Options): string
  {
    var name := StorageName(tableName, options);
    "CREATE INDEX idx_" + name + "_created_at ON " + name + "(created_at);"
  }

  function IndexStatements(tables: seq<TableSchema>, options: Options): seq<string>
  {
    if tables == [] then []
    else
      (if options.addTimestamps then [IndexSql(tables[0].tableName, options)] else [])
        + IndexStatements(tables[1..], options)
  }

  /** Every statement in order, before joining; an error for a root that is not an object. */
  function SchemaStatements(root: Json, options: Options, parsesAsDate: string -> bool): Result<Registry, Failure>
  {
    if root.JArr? then Err(RootIsArray)
    else if !IsObjectType(root) then Err(RootNotObject)
    else if root.JNull? then Err(EntriesOfNull)
    else
      var reg :- EntriesFold(root.members, Registry([], []), options, parsesAsDate);
      Ok(Registry(reg.tables, reg.statements + [IndexHeader] + IndexStatements(reg.tables, options)))
  }

  datatype Conversion = Conversion(sql: string, tables: seq<TableSchema>)

  /** `convertJsonToPostgres` on the outcome of `JSON.parse`; every error is wrapped. */
  function Schema(parsed: Result<Json, string>, options: Options, parsesAsDate: string -> bool): Result<Conversion, string>
  {
    match parsed
    case Err(message) => Err(ErrorPrefix + message)
    case Ok(root) =>
      match SchemaStatements(root, options, parsesAsDate)
      case Err(f) => Err(ErrorPrefix + Message(f))
      case Ok(reg) => Ok(Conversion(Join(reg.statements, "\n\n"), reg.tables))
  }

  /** The inner `forEach`: registers each related table whose name is not taken yet. */
  method AddRelatedTables(
    parentName: string, relatedTables: seq<TableSchema>, tables0: seq<TableSchema>, statements0: seq<string>,
    options: Options, parsesAsDate: string -> bool)
    returns (out: Registry)
    ensures out == RegisterAll(parentName, relatedTables, Registry(tables0, statements0), options, parsesAsDate)
  {
    var tables, sqlStatements := tables0, statements0;
    var j := 0;
    while j < |relatedTables|
      invariant 0 <= j <= |relatedTables|
      invariant RegisterAll(parentName, relatedTables[j..], Registry(tables, sqlStatements), options, parsesAsDate)
        == RegisterAll(parentName, relatedTables, Registry(tables0, statements0), options, parsesAsDate)
    {
      var relatedTable := relatedTables[j];
      assert relatedTables[j..][1..] == relatedTables[j + 1..];
      if !Registered(tables, relatedTable.tableName) {
        tables := tables + [relatedTable];
        var relatedFields := JObj(RelatedFields(relatedTable.fields, parentName));
        var created := JsonToPostgresTable(relatedTable.tableName, relatedFields, options, parsesAsDate);
        sqlStatements := sqlStatements + [created.value];
        sqlStatements := sqlStatements + [ForeignKeySql(relatedTable.tableName, parentName)];
      }
      j := j + 1;
    }
    assert relatedTables[j..] == [];
    out := Registry(tables, sqlStatements);
  }

  /** The outer `forEach` callback: one entry of the root object. */
  method AddTopLevelEntry(
    tables: seq<TableSchema>, sqlStatements: seq<string>, tableName: string, tableData: Json,
    options: Options, parsesAsDate: string -> bool)
    returns (r: Result<Registry, Failure>)
    ensures r == EntryStep(Registry(tables, sqlStatements), (tableName, tableData), options, parsesAsDate)
  {
    if IsObjectType(tableData) && !tableData.JArr? {
      var created := JsonToPostgresTable(tableName, tableData, options, parsesAsDate);
      if created.Err? {
        return Err(created.error);
      }
      var detected := DetectRelatedTables(tableData);
      var out := AddRelatedTables(tableName, detected.value,
        tables + [TableSchema(tableName, tableData)], sqlStatements + [created.value], options, parsesAsDate);
      r := Ok(out);
    } else if tableData.JArr? && |tableData.elems| > 0 {
      var sampleObject := tableData.elems[0];
      if IsObjectType(sampleObject) {
        var created := JsonToPostgresTable(tableName, sampleObject, options, parsesAsDate);
        if created.Err? {
          return Err(created.error);
        }
        r := Ok(Registry(tables + [TableSchema(tableName, sampleObject)], sqlStatements + [created.value]));
      } else {
        r := Ok(Registry(tables, sqlStatements));
      }
    } else {
      r := Ok(Registry(tables, sqlStatements));
    }
  }

  /** The outer `forEach` over the entries of the root object. */
  method AddTopLevelEntries(entries: seq<(string, Json)>, options: Options, parsesAsDate: string -> bool)
    returns (r: Result<Registry, Failure>)
    ensures r == EntriesFold(entries, Registry([], []), options, parsesAsDate)
  {
    var tables: seq<TableSchema> := [];
    var sqlStatements: seq<string> := [];
    var i := 0;
    while i < |entries|
      invariant 0 <= i <= |entries|
      invariant EntriesFold(entries[i..], Registry(tables, sqlStatements), options, parsesAsDate)
        == EntriesFold(entries, Registry([], []), options, parsesAsDate)
    {
      assert entries[i..][0] == entries[i] && entries[i..][1..] == entries[i + 1..];
      var step := AddTopLevelEntry(tables, sqlStatements, entries[i].0, entries[i].1, options, parsesAsDate);
      if step.Err? {
        return Err(step.error);
      }
      tables, sqlStatements := step.value.tables, step.value.statements;
      i := i + 1;
    }
    assert entries[i..] == [];
    r := Ok(Registry(tables, sqlStatements));
  }

  /** The index loop: one `CREATE INDEX` per table when timestamps are on. */
  method AppendIndexes(statements: seq<string>, tables: seq<TableSchema>, options: Options)
    returns (sqlStatements: seq<string>)
    ensures sqlStatements == statements + IndexStatements(tables, options)
  {
    sqlStatements := statements;
    var k := 0;
    while k < |tables|
      invariant 0 <= k <= |tables|
      invariant sqlStatements + IndexStatements(tables[k..], options) == statements + IndexStatements(tables, options)
    {
      var indexName := StorageName(tables[k].tableName, options);
      ghost var piece := if options.addTimestamps then [IndexSql(tables[k].tableName, options)] else [];
      assert IndexStatements(tables[k..], options) == piece + IndexStatements(tables[k + 1..], options) by {
        assert tables[k..][0] == tables[k] && tables[k..][1..] == tables[k + 1..];
      }
      AppendAssoc(sqlStatements, piece, IndexStatements(tables[k + 1..], options));
      if options.addTimestamps {
        sqlStatements := sqlStatements + ["CREATE INDEX idx_" + indexName + "_created_at ON " + indexName + "(created_at);"];
      }
      k := k + 1;
    }
    assert tables[k..] == [];
  }

  method ConvertJsonToPostgres(parsed: Result<Json, string>, options: Options, parsesAsDate: string -> bool)
    returns (r: Result<Conversion, string>)
    ensures r == Schema(parsed, options, parsesAsDate)
  {
    if parsed.Err? {
      return Err(ErrorPrefix + parsed.error);
    }
    var data := parsed.value;
    if data.JArr? {
      return Err(ErrorPrefix + Message(RootIsArray));
    }
    if !IsObjectType(data) {
      return Err(ErrorPrefix + Message(RootNotObject));
    }
    if data.JNull? {
      return Err(ErrorPrefix + Message(EntriesOfNull));
    }
    var registered := AddTopLevelEntries(data.members, options, parsesAsDate);
    if registered.Err? {
      return Err(ErrorPrefix + Message(registered.error));
    }
    var tables := registered.value.tables;
    var sqlStatements := AppendIndexes(registered.value.statements + [IndexHeader], tables, options);
    r := Ok(Conversion(Join(sqlStatements, "\n\n"), tables));
  }

  // ---------------------------------------------------------------- properties

  lemma RegisteredInLonger(tables: seq<TableSchema>, more: seq<TableSchema>, name: string)
    requires Registered(tables, name)
    ensures Registered(tables + more, name)
  {
    var i :| 0 <= i < |tables| && tables[i].tableName == name;
    assert (tables + more)[i] == tables[i];
  }

  /**
   * One related table: when its name is new it is registered and followed by its CREATE TABLE
   * and its foreign-key constraint; otherwise nothing changes.
   */
  lemma RegisterRelatedFirstWins(parentName: string, acc: Registry, t: TableSchema, options: Options, parsesAsDate: string -> bool)
    ensures var tables := RegisterRelated(parentName, acc, t, options, parsesAsDate).tables;
      && Registered(tables, t.tableName)
      && (if Registered(acc.tables, t.tableName) then tables == acc.tables else tables == acc.tables + [t])
    ensures Registered(acc.tables, t.tableName) ==> RegisterRelated(parentName, acc, t, options, parsesAsDate) == acc
    ensures !Registered(acc.tables, t.tableName) ==>
      RegisterRelated(parentName, acc, t, options, parsesAsDate).statements == acc.statements
        + [TableSql(t.tableName, RelatedFields(t.fields, parentName), options, parsesAsDate), ForeignKeySql(t.tableName, parentName)]
  {
    if !Registered(acc.tables, t.tableName) {
      assert (acc.tables + [t])[|acc.tables|] == t;
    }
  }

  /** The registered tables only grow: the tables before the call stay first, in order. */
  lemma {:induction false} RegisterAllExtends(
    parentName: string, related: seq<TableSchema>, acc: Registry, options: Options, parsesAsDate: string -> bool)
    ensures var tables := RegisterAll(parentName, related, acc, options, parsesAsDate).tables;
      |acc.tables| <= |tables| && tables[..|acc.tables|] == acc.tables
  {
    if related != [] {
      var next := RegisterRelated(parentName, acc, related[0], options, parsesAsDate);
      RegisterRelatedFirstWins(parentName, acc, related[0], options, parsesAsDate);
      RegisterAllExtends(parentName, related[1..], next, options, parsesAsDate);
      var tables := RegisterAll(parentName, related[1..], next, options, parsesAsDate).tables;
      assert tables[..|acc.tables|] == tables[..|next.tables|][..|acc.tables|];
    }
  }

  /** Every related table's name ends up registered, by that table or by an earlier one. */
  lemma {:induction false} RegisterAllRegisters(
    parentName: string, related: seq<TableSchema>, acc: Registry, options: Options, parsesAsDate: string -> bool)
    ensures forall i :: 0 <= i < |related| ==>
      Registered(RegisterAll(parentName, related, acc, options, parsesAsDate).tables, related[i].tableName)
  {
    if related != [] {
      var next := RegisterRelated(parentName, acc, related[0], options, parsesAsDate);
      RegisterRelatedFirstWins(parentName, acc, related[0], options, parsesAsDate);
      RegisterAllRegisters(parentName, related[1..], next, options, parsesAsDate);
      RegisterAllExtends(parentName, related[1..], next, options, parsesAsDate);
      var tables := RegisterAll(parentName, related[1..], next, options, parsesAsDate).tables;
      assert tables == next.tables + tables[|next.tables|..];
      RegisteredInLonger(next.tables, tables[|next.tables|..], related[0].tableName);
      forall i | 0 < i < |related|
        ensures Registered(tables, related[i].tableName)
      {
        assert related[i] == related[1..][i - 1];
      }
    }
  }

  /**
   * First registration wins: each table added comes from the related list and carries
   * a name no table before it has, so no name is registered twice.
   */
  lemma {:induction false} RegisterAllFirstWins(
    parentName: string, related: seq<TableSchema>, acc: Registry, options: Options, parsesAsDate: string -> bool)
    ensures var tables := RegisterAll(parentName, related, acc, options, parsesAsDate).tables;
      forall i :: |acc.tables| <= i < |tables| ==>
        tables[i] in related && !Registered(tables[..i], tables[i].tableName)
  {
    if related != [] {
      var next := RegisterRelated(parentName, acc, related[0], options, parsesAsDate);
      RegisterRelatedFirstWins(parentName, acc, related[0], options, parsesAsDate);
      RegisterAllFirstWins(parentName, related[1..], next, options, parsesAsDate);
      RegisterAllExtends(parentName, related[1..], next, options, parsesAsDate);
      var tables := RegisterAll(parentName, related[1..], next, options, parsesAsDate).tables;
      forall i | |acc.tables| <= i < |tables|
        ensures tables[i] in related && !Registered(tables[..i], tables[i].tableName)
      {
        if i < |next.tables| {
          assert next.tables == acc.tables + [related[0]];
          assert i == |acc.tables|;
          assert tables[..|next.tables|] == next.tables;
          assert tables[i] == next.tables[i] == related[0];
          assert tables[..i] == next.tables[..i] == acc.tables;
        } else {
          var k :| 0 <= k < |related[1..]| && related[1..][k] == tables[i];
          assert related[k + 1] == tables[i];
        }
      }
    }
  }

  predicate IsCreateTable(s: string)
  {
    StartsWith(s, "CREATE TABLE ")
  }

  predicate IsCreateIndex(s: string)
  {
    StartsWith(s, "CREATE INDEX ")
  }

  predicate IsIndexHeader(s: string)
  {
    s == IndexHeader
  }

  lemma CreateTableKind(name: string, columns: seq<string>)
    ensures IsCreateTable(CreateTableSql(name, columns))
    ensures !IsCreateIndex(CreateTableSql(name, columns)) && !IsIndexHeader(CreateTableSql(name, columns))
  {
    var s := CreateTableSql(name, columns);
    assert s == "CREATE TABLE " + (name + " (\n" + Join(columns, ",\n") + "\n);");
    assert s[..13] == "CREATE TABLE ";
    assert s[7] == 'T' && s[0] == 'C';
  }

  lemma ForeignKeyKind(childName: string, parentName: string)
    ensures !IsCreateTable(ForeignKeySql(childName, parentName))
    ensures !IsCreateIndex(ForeignKeySql(childName, parentName)) && !IsIndexHeader(ForeignKeySql(childName, parentName))
  {
    var s := ForeignKeySql(childName, parentName);
    assert s[0] == 'A';
  }

  lemma IndexKind(tableName: string, options: Options)
    ensures IsCreateIndex(IndexSql(tableName, options))
    ensures !IsCreateTable(IndexSql(tableName, options)) && !IsIndexHeader(IndexSql(tableName, options))
  {
    var name := StorageName(tableName, options);
    var s := IndexSql(tableName, options);
    assert s == "CREATE INDEX " + ("idx_" + name + "_created_at ON " + name + "(created_at);");
    assert s[..13] == "CREATE INDEX ";
    assert s[7] == 'I' && s[0] == 'C';
  }

  /** Before the index block: one CREATE TABLE per registered table, no index, no header. */
  ghost predicate Paired(reg: Registry)
  {
    && Count(reg.statements, IsCreateTable) == |reg.tables|
    && Count(reg.statements, IsCreateIndex) == 0
    && Count(reg.statements, IsIndexHeader) == 0
  }

  lemma PairedAppend(reg: Registry, t: TableSchema, more: seq<string>)
    requires Paired(reg)
    requires Count(more, IsCreateTable) == 1 && Count(more, IsCreateIndex) == 0 && Count(more, IsIndexHeader) == 0
    ensures Paired(Registry(reg.tables + [t], reg.statements + more))
  {
    CountAppend(reg.statements, more, IsCreateTable);
    CountAppend(reg.statements, more, IsCreateIndex);
    CountAppend(reg.statements, more, IsIndexHeader);
  }

  lemma RegisterRelatedPaired(
    parentName: string, acc: Registry, t: TableSchema, options: Options, parsesAsDate: string -> bool)
    requires Paired(acc)
    ensures Paired(RegisterRelated(parentName, acc, t, options, parsesAsDate))
  {
    if !Registered(acc.tables, t.tableName) {
      var created := TableSql(t.tableName, RelatedFields(t.fields, parentName), options, parsesAsDate);
      var fk := ForeignKeySql(t.tableName, parentName);
      CreateTableKind(StorageName(t.tableName, options), TableColumns(RelatedFields(t.fields, parentName), options, parsesAsDate));
      ForeignKeyKind(t.tableName, parentName);
      CountSingle(created, IsCreateTable);
      CountSingle(created, IsCreateIndex);
      CountSingle(created, IsIndexHeader);
      PairedAppend(acc, t, [created]);
      CountSingle(fk, IsCreateTable);
      CountSingle(fk, IsCreateIndex);
      CountSingle(fk, IsIndexHeader);
      CountAppend(acc.statements + [created], [fk], IsCreateTable);
      CountAppend(acc.statements + [created], [fk], IsCreateIndex);
      CountAppend(acc.statements + [created], [fk], IsIndexHeader);
    }
  }

  lemma {:induction false} RegisterAllPaired(
    parentName: string, related: seq<TableSchema>, acc: Registry, options: Options, parsesAsDate: string -> bool)
    requires Paired(acc)
    ensures Paired(RegisterAll(parentName, related, acc, options, parsesAsDate))
  {
    if related != [] {
      RegisterRelatedPaired(parentName, acc, related[0], options, parsesAsDate);
      RegisterAllPaired(parentName, related[1..], RegisterRelated(parentName, acc, related[0], options, parsesAsDate), options, parsesAsDate);
    }
  }

  lemma EntryStepPaired(acc: Registry, e: (string, Json), options: Options, parsesAsDate: string -> bool)
    requires Paired(acc) && EntryStep(acc, e, options, parsesAsDate).Ok?
    ensures Paired(EntryStep(acc, e, options, parsesAsDate).value)
  {
    var tableData := e.1;
    if IsObjectType(tableData) && !tableData.JArr? {
      CreateTableKind(StorageName(e.0, options), TableColumns(Entries(tableData), options, parsesAsDate));
      var created := TableSql(e.0, Entries(tableData), options, parsesAsDate);
      CountSingle(created, IsCreateTable);
      CountSingle(created, IsCreateIndex);
      CountSingle(created, IsIndexHeader);
      PairedAppend(acc, TableSchema(e.0, tableData), [created]);
      RegisterAllPaired(e.0, RelatedTablesOf(Entries(tableData)),
        Registry(acc.tables + [TableSchema(e.0, tableData)], acc.statements + [created]), options, parsesAsDate);
    } else if tableData.JArr? && |tableData.elems| > 0 && IsObjectType(tableData.elems[0]) {
      var sample := tableData.elems[0];
      CreateTableKind(StorageName(e.0, options), TableColumns(Entries(sample), options, parsesAsDate));
      var created := TableSql(e.0, Entries(sample), options, parsesAsDate);
      CountSingle(created, IsCreateTable);
      CountSingle(created, IsCreateIndex);
      CountSingle(created, IsIndexHeader);
      PairedAppend(acc, TableSchema(e.0, sample), [TableSql(e.0, Entries(sample), options, parsesAsDate)]);
    }
  }

  lemma {:induction false} EntriesFoldPaired(es: seq<(string, Json)>, acc: Registry, options: Options, parsesAsDate: string -> bool)
    requires Paired(acc) && EntriesFold(es, acc, options, parsesAsDate).Ok?
    ensures Paired(EntriesFold(es, acc, options, parsesAsDate).value)
  {
    if es != [] {
      EntryStepPaired(acc, es[0], options, parsesAsDate);
      EntriesFoldPaired(es[1..], EntryStep(acc, es[0], options, parsesAsDate).value, options, parsesAsDate);
    }
  }

  lemma {:induction false} IndexStatementsCount(tables: seq<TableSchema>, options: Options)
    ensures Count(IndexStatements(tables, options), IsCreateIndex) == if options.addTimestamps then |tables| else 0
    ensures Count(IndexStatements(tables, options), IsCreateTable) == 0
    ensures Count(IndexStatements(tables, options), IsIndexHeader) == 0
  {
    if tables != [] {
      IndexKind(tables[0].tableName, options);
      IndexStatementsCount(tables[1..], options);
      var head := if options.addTimestamps then [IndexSql(tables[0].tableName, options)] else [];
      CountSingle(IndexSql(tables[0].tableName, options), IsCreateIndex);
      CountSingle(IndexSql(tables[0].tableName, options), IsCreateTable);
      CountSingle(IndexSql(tables[0].tableName, options), IsIndexHeader);
      CountAppend(head, IndexStatements(tables[1..], options), IsCreateIndex);
      CountAppend(head, IndexStatements(tables[1..], options), IsCreateTable);
      CountAppend(head, IndexStatements(tables[1..], options), IsIndexHeader);
    }
  }

  /** Appending the index comment and the index block to paired statements. */
  lemma IndexBlockCounts(reg: Registry, options: Options)
    requires Paired(reg)
    ensures var all := reg.statements + [IndexHeader] + IndexStatements(reg.tables, options);
      && Count(all, IsCreateTable) == |reg.tables|
      && Count(all, IsCreateIndex) == (if options.addTimestamps then |reg.tables| else 0)
      && Count(all, IsIndexHeader) == 1
  {
    var indexes := IndexStatements(reg.tables, options);
    IndexStatementsCount(reg.tables, options);
    assert IndexHeader[0] == '\n';
    CountSingle(IndexHeader, IsCreateTable);
    CountSingle(IndexHeader, IsCreateIndex);
    CountSingle(IndexHeader, IsIndexHeader);
    CountAppend(reg.statements, [IndexHeader], IsCreateTable);
    CountAppend(reg.statements, [IndexHeader], IsCreateIndex);
    CountAppend(reg.statements, [IndexHeader], IsIndexHeader);
    CountAppend(reg.statements + [IndexHeader], indexes, IsCreateTable);
    CountAppend(reg.statements + [IndexHeader], indexes, IsCreateIndex);
    CountAppend(reg.statements + [IndexHeader], indexes, IsIndexHeader);
  }

  /**
   * The counting invariants of a successful run: one CREATE TABLE per registered table,
   * the index comment exactly once and followed by the index block, and one CREATE INDEX
   * per table when timestamps are on (none otherwise).
   */
  lemma SchemaCounts(root: Json, options: Options, parsesAsDate: string -> bool)
    requires SchemaStatements(root, options, parsesAsDate).Ok?
    ensures var reg := SchemaStatements(root, options, parsesAsDate).value;
      && Count(reg.statements, IsCreateTable) == |reg.tables|
      && Count(reg.statements, IsCreateIndex) == (if options.addTimestamps then |reg.tables| else 0)
      && Count(reg.statements, IsIndexHeader) == 1
      && (var n := |IndexStatements(reg.tables, options)|;
         && n < |reg.statements|
         && reg.statements[|reg.statements| - n - 1] == IndexHeader
         && reg.statements[|reg.statements| - n..] == IndexStatements(reg.tables, options))
  {
    var folded := EntriesFold(root.members, Registry([], []), options, parsesAsDate).value;
    assert Paired(Registry([], []));
    EntriesFoldPaired(root.members, Registry([], []), options, parsesAsDate);
    IndexBlockCounts(folded, options);
  }

  /** Top-level values the run can handle: anything except null and arrays whose element 0 is null. */
  predicate AcceptedTopLevel(v: Json)
  {
    v != JNull && !(v.JArr? && |v.elems| > 0 && v.elems[0] == JNull)
  }

  lemma {:induction false} EntriesFoldSucceedsIff(es: seq<(string, Json)>, acc: Registry, options: Options, parsesAsDate: string -> bool)
    ensures EntriesFold(es, acc, options, parsesAsDate).Ok? <==> forall j :: 0 <= j < |es| ==> AcceptedTopLevel(es[j].1)
  {
    if es != [] {
      var step := EntryStep(acc, es[0], options, parsesAsDate);
      if step.Ok? {
        EntriesFoldSucceedsIff(es[1..], step.value, options, parsesAsDate);
        if forall j :: 0 <= j < |es[1..]| ==> AcceptedTopLevel(es[1..][j].1) {
          forall j | 0 <= j < |es| ensures AcceptedTopLevel(es[j].1) {
            if j > 0 {
              assert es[j] == es[1..][j - 1];
            }
          }
        }
      }
    }
  }

  /**
   * A parsed root succeeds exactly when it is an object none of whose values is null
   * or an array whose element 0 is null (those reach `Object.entries(null)`).
   */
  lemma SchemaSucceedsIff(root: Json, options: Options, parsesAsDate: string -> bool)
    ensures SchemaStatements(root, options, parsesAsDate).Ok? <==>
      root.JObj? && forall j :: 0 <= j < |root.members| ==> AcceptedTopLevel(root.members[j].1)
  {
    if root.JObj? {
      EntriesFoldSucceedsIff(root.members, Registry([], []), options, parsesAsDate);
    }
  }

  /** Every failure is reported with the same prefix; a parse error keeps its own message. */
  lemma SchemaErrorPrefix(parsed: Result<Json, string>, options: Options, parsesAsDate: string -> bool)
    ensures Schema(parsed, options, parsesAsDate).Err? ==> StartsWith(Schema(parsed, options, parsesAsDate).error, ErrorPrefix)
    ensures parsed.Err? ==> Schema(parsed, options, parsesAsDate) == Err(ErrorPrefix + parsed.error)
  {
    var r := Schema(parsed, options, parsesAsDate);
    if r.Err? {
      var rest := if parsed.Err? then parsed.error else Message(SchemaStatements(parsed.value, options, parsesAsDate).error);
      assert r.error == ErrorPrefix + rest;
      assert r.error[..|ErrorPrefix|] == ErrorPrefix;
    }
  }

  /** The root-shape checks: an array, a primitive and null each fail with their own message. */
  lemma SchemaRootErrors(root: Json, options: Options, parsesAsDate: string -> bool)
    ensures root.JArr? ==> Schema(Ok(root), options, parsesAsDate) == Err(ErrorPrefix + Message(RootIsArray))
    ensures (root.JStr? || root.JNum? || root.JBool?) ==>
      Schema(Ok(root), options, parsesAsDate) == Err(ErrorPrefix + Message(RootNotObject))
    ensures root.JNull? ==> Schema(Ok(root), options, parsesAsDate) == Err(ErrorPrefix + Message(EntriesOfNull))
  {
    if root.JArr? {
      assert SchemaStatements(root, options, parsesAsDate) == Err(RootIsArray);
    } else if root.JStr? || root.JNum? || root.JBool? {
      assert SchemaStatements(root, options, parsesAsDate) == Err(RootNotObject);
    } else if root.JNull? {
      assert SchemaStatements(root, options, parsesAsDate) == Err(EntriesOfNull);
    }
  }

  /** The value `0` gives an `INTEGER NOT NULL` column. */
  lemma ZeroColumn(key: string, options: Options, parsesAsDate: string -> bool)
    ensures ColumnDefinition(key, JNum(0.0), options, parsesAsDate) == "  " + StorageName(key, options) + " INTEGER NOT NULL"
  {
    assert IsInteger(0.0);
  }

  /** A kept field's column is among the table's columns. */
  lemma FieldInTableColumns(es: seq<(string, Json)>, j: nat, options: Options, parsesAsDate: string -> bool)
    requires j < |es| && !IsArrayOfObjects(es[j].1)
    ensures ColumnDefinition(es[j].0, es[j].1, options, parsesAsDate) in TableColumns(es, options, parsesAsDate)
  {
    FieldColumnsHasField(es, j, options, parsesAsDate);
  }

  /**
   * A related table's statement gains the integer column `${parent}_id`, NOT NULL; with
   * snake case on, that column is the one the foreign-key constraint names.
   */
  lemma ForeignKeyColumn(fields: Json, parentName: string, options: Options, parsesAsDate: string -> bool)
    ensures "  " + StorageName(parentName + "_id", options) + " INTEGER NOT NULL"
      in TableColumns(RelatedFields(fields, parentName), options, parsesAsDate)
    ensures options.useSnakeCase && parentName != "" ==>
      StorageName(parentName + "_id", options) == ToSnakeCase(parentName) + "_id"
  {
    var es := RelatedFields(fields, parentName);
    var key := parentName + "_id";
    var j :| 0 <= j < |es| && es[j] == (key, JNum(0.0));
    FieldInTableColumns(es, j, options, parsesAsDate);
    ZeroColumn(key, options, parsesAsDate);
    if options.useSnakeCase && parentName != "" {
      SnakeCaseAppendId(parentName);
    }
  }

  /**
   * With snake case off, the column is `${parent}_id` as written while the constraint
   * names the snake-cased parent: the two agree only when snake-casing leaves the parent
   * name unchanged.
   */
  lemma ForeignKeyColumnWithoutSnakeCase(parentName: string, options: Options)
    requires !options.useSnakeCase
    ensures StorageName(parentName + "_id", options) == ToSnakeCase(parentName) + "_id"
      <==> ToSnakeCase(parentName) == parentName
  {
    var a, b := parentName + "_id", ToSnakeCase(parentName) + "_id";
    if a == b {
      assert |parentName| == |ToSnakeCase(parentName)|;
      assert parentName == a[..|parentName|] == b[..|parentName|] == ToSnakeCase(parentName);
    }
  }
}
