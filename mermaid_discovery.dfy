/**
 * `jsonToMermaid`: the tables the diagram shows, discovered from the parsed root
 * the same way the SQL generator discovers them, and the wrapped error message.
 */
module MermaidDiscovery {
  import opened Wrappers
  import opened Seqs
  import opened JsonValues
  import opened Tables
  import opened SqlTable
  import opened SqlSchema
  import opened MermaidDiagram

  const MermaidErrorPrefix := "Failed to generate Mermaid diagram: "

  /** The diagram generator words the root-is-an-array error differently from the SQL generator. */
  function MermaidMessage(f: Failure): string
  {
    match f
    case EntriesOfNull => "Cannot convert undefined or null to object"
    case RootIsArray => "Please provide a JSON object, not an array at the root level"
    case RootNotObject => "Invalid JSON: Expected an object"
  }

  /** One nested field: a new table for an array of objects (its element 0) or an object, unless the name is taken. */
  function NestedStep(tables: seq<TableSchema>, e: (string, Json)): seq<TableSchema>
  {
    if IsArrayOfObjects(e.1) then
      if Registered(tables, e.0) then tables else tables + [TableSchema(e.0, e.1.elems[0])]
    else if IsNestedObject(e.1) then
      if Registered(tables, e.0) then tables else tables + [TableSchema(e.0, e.1)]
    else tables
  }

  function DiscoverNested(tables: seq<TableSchema>, es: seq<(string, Json)>): seq<TableSchema>
    decreases es
  {
    if es == [] then tables else DiscoverNested(NestedStep(tables, es[0]), es[1..])
  }

  /**
   * One top-level entry: an object (or null) is registered and its fields scanned,
   * where `Object.entries(null)` throws; an array whose element 0 is object-typed
   * registers that element.
   */
  function DiscoverStep(tables: seq<TableSchema>, e: (string, Json)): Result<seq<TableSchema>, Failure>
  {
    if IsObjectType(e.1) && !e.1.JArr? then
      if e.1.JNull? then Err(EntriesOfNull)
      else Ok(DiscoverNested(tables + [TableSchema(e.0, e.1)], Entries(e.1)))
    else if e.1.JArr? && |e.1.elems| > 0 && IsObjectType(e.1.elems[0]) then
      Ok(tables + [TableSchema(e.0, e.1.elems[0])])
    else Ok(tables)
  }

  function DiscoverFold(es: seq<(string, Json)>, tables: seq<TableSchema>): Result<seq<TableSchema>, Failure>
  {
    if es == [] then Ok(tables)
    else
      var next :- DiscoverStep(tables, es[0]);
      DiscoverFold(es[1..], next)
  }

  function DiscoverTables(root: Json): Result<seq<TableSchema>, Failure>
  {
    if root.JArr? then Err(RootIsArray)
    else if !IsObjectType(root) then Err(RootNotObject)
    else if root.JNull? then Err(EntriesOfNull)
    else DiscoverFold(root.members, [])
  }

  /** `jsonToMermaid` on the outcome of `JSON.parse`; every error is wrapped. */
  function MermaidOf(parsed: Result<Json, string>): Result<string, string>
  {
    match parsed
    case Err(message) => Err(MermaidErrorPrefix + message)
    case Ok(root) =>
      match DiscoverTables(root)
      case Err(f) => Err(MermaidErrorPrefix + MermaidMessage(f))
      case Ok(tables) =>
        match Diagram(tables)
        case Err(f) => Err(MermaidErrorPrefix + MermaidMessage(f))
        case Ok(text) => Ok(text)
  }

  // ---------------------------------------------------------------- methods

  /** The inner `forEach` over the fields of a top-level object. */
  method DiscoverNestedTables(tables0: seq<TableSchema>, entries: seq<(string, Json)>) returns (tables: seq<TableSchema>)
    ensures tables == DiscoverNested(tables0, entries)
  {
    tables := tables0;
    var j := 0;
    while j < |entries|
      invariant 0 <= j <= |entries|
      invariant DiscoverNested(tables, entries[j..]) == DiscoverNested(tables0, entries)
    {
      var key := entries[j].0;
      var value := entries[j].1;
      assert entries[j..][0] == entries[j] && entries[j..][1..] == entries[j + 1..];
      if IsArrayOfObjects(value) {
        if !Registered(tables, key) {
          tables := tables + [TableSchema(key, value.elems[0])];
        }
      } else if IsNestedObject(value) {
        if !Registered(tables, key) {
          tables := tables + [TableSchema(key, value)];
        }
      }
      j := j + 1;
    }
    assert entries[j..] == [];
  }

  method JsonToMermaid(parsed: Result<Json, string>) returns (r: Result<string, string>)
    ensures r == MermaidOf(parsed)
  {
    if parsed.Err? {
      return Err(MermaidErrorPrefix + parsed.error);
    }
    var data := parsed.value;
    if data.JArr? {
      return Err(MermaidErrorPrefix + MermaidMessage(RootIsArray));
    }
    if !IsObjectType(data) {
      return Err(MermaidErrorPrefix + MermaidMessage(RootNotObject));
    }
    if data.JNull? {
      return Err(MermaidErrorPrefix + MermaidMessage(EntriesOfNull));
    }
    var entries := data.members;
    var tables: seq<TableSchema> := [];
    var i := 0;
    while i < |entries|
      invariant 0 <= i <= |entries|
      invariant DiscoverFold(entries[i..], tables) == DiscoverFold(entries, [])
    {
      var tableName := entries[i].0;
      var tableData := entries[i].1;
      assert entries[i..][0] == entries[i] && entries[i..][1..] == entries[i + 1..];
      if IsObjectType(tableData) && !tableData.JArr? {
        if tableData.JNull? {
          return Err(MermaidErrorPrefix + MermaidMessage(EntriesOfNull));
        }
        tables := DiscoverNestedTables(tables + [TableSchema(tableName, tableData)], Entries(tableData));
      } else if tableData.JArr? && |tableData.elems| > 0 {
        var sampleObject := tableData.elems[0];
        if IsObjectType(sampleObject) {
          tables := tables + [TableSchema(tableName, sampleObject)];
        }
      }
      i := i + 1;
    }
    assert entries[i..] == [];
    var diagram := GenerateMermaidDiagram(tables);
    if diagram.Err? {
      return Err(MermaidErrorPrefix + MermaidMessage(diagram.error));
    }
    r := Ok(diagram.value);
  }

  // ---------------------------------------------------------------- properties

  lemma {:induction false} RegisterAllAppend(
    parentName: string, a: seq<TableSchema>, b: seq<TableSchema>, acc: Registry, options: Options, parsesAsDate: string -> bool)
    ensures RegisterAll(parentName, a + b, acc, options, parsesAsDate)
      == RegisterAll(parentName, b, RegisterAll(parentName, a, acc, options, parsesAsDate), options, parsesAsDate)
  {
    if a == [] {
      assert a + b == b;
    } else {
      assert (a + b)[0] == a[0] && (a + b)[1..] == a[1..] + b;
      RegisterAllAppend(parentName, a[1..], b, RegisterRelated(parentName, acc, a[0], options, parsesAsDate), options, parsesAsDate);
    }
  }

  /** Registering the related tables of some fields registers what the diagram's scan of those fields registers. */
  lemma {:induction false} NestedAgrees(
    parentName: string, es: seq<(string, Json)>, acc: Registry, options: Options, parsesAsDate: string -> bool)
    ensures RegisterAll(parentName, RelatedTablesOf(es), acc, options, parsesAsDate).tables == DiscoverNested(acc.tables, es)
  {
    if es != [] {
      var e := es[0];
      var head :=
        if IsArrayOfObjects(e.1) then [TableSchema(e.0, e.1.elems[0])]
        else if IsNestedObject(e.1) then [TableSchema(e.0, e.1)]
        else [];
      assert RelatedTablesOf(es) == head + RelatedTablesOf(es[1..]);
      RegisterAllAppend(parentName, head, RelatedTablesOf(es[1..]), acc, options, parsesAsDate);
      var next := RegisterAll(parentName, head, acc, options, parsesAsDate);
      if head != [] {
        assert head[1..] == [];
      }
      assert next.tables == NestedStep(acc.tables, e);
      NestedAgrees(parentName, es[1..], next, options, parsesAsDate);
    }
  }

  lemma EntryStepAgrees(acc: Registry, e: (string, Json), options: Options, parsesAsDate: string -> bool)
    requires EntryStep(acc, e, options, parsesAsDate).Ok?
    ensures DiscoverStep(acc.tables, e) == Ok(EntryStep(acc, e, options, parsesAsDate).value.tables)
  {
    if IsObjectType(e.1) && !e.1.JArr? {
      var created := TableStatement(e.0, e.1, options, parsesAsDate).value;
      NestedAgrees(e.0, Entries(e.1), Registry(acc.tables + [TableSchema(e.0, e.1)], acc.statements + [created]),
        options, parsesAsDate);
    }
  }

  lemma {:induction false} EntriesFoldAgrees(es: seq<(string, Json)>, acc: Registry, options: Options, parsesAsDate: string -> bool)
    requires EntriesFold(es, acc, options, parsesAsDate).Ok?
    ensures DiscoverFold(es, acc.tables) == Ok(EntriesFold(es, acc, options, parsesAsDate).value.tables)
  {
    if es != [] {
      EntryStepAgrees(acc, es[0], options, parsesAsDate);
      EntriesFoldAgrees(es[1..], EntryStep(acc, es[0], options, parsesAsDate).value, options, parsesAsDate);
    }
  }

  /** Whenever the SQL schema can be generated, the diagram shows exactly its tables, in the same order. */
  lemma GeneratorsAgree(root: Json, options: Options, parsesAsDate: string -> bool)
    requires SchemaStatements(root, options, parsesAsDate).Ok?
    ensures DiscoverTables(root) == Ok(SchemaStatements(root, options, parsesAsDate).value.tables)
  {
    EntriesFoldAgrees(root.members, Registry([], []), options, parsesAsDate);
  }

  /** Discovery only adds tables after the ones it started with. */
  lemma {:induction false} DiscoverNestedExtends(tables: seq<TableSchema>, es: seq<(string, Json)>)
    ensures |tables| <= |DiscoverNested(tables, es)| && DiscoverNested(tables, es)[..|tables|] == tables
    decreases es
  {
    if es != [] {
      var next := NestedStep(tables, es[0]);
      DiscoverNestedExtends(next, es[1..]);
      var out := DiscoverNested(next, es[1..]);
      assert next[..|tables|] == tables;
      assert out[..|tables|] == out[..|next|][..|tables|];
    }
  }

  lemma {:induction false} DiscoverFoldExtends(es: seq<(string, Json)>, tables: seq<TableSchema>)
    requires DiscoverFold(es, tables).Ok?
    ensures |tables| <= |DiscoverFold(es, tables).value| && DiscoverFold(es, tables).value[..|tables|] == tables
  {
    if es != [] {
      var next := DiscoverStep(tables, es[0]).value;
      if IsObjectType(es[0].1) && !es[0].1.JArr? {
        DiscoverNestedExtends(tables + [TableSchema(es[0].0, es[0].1)], Entries(es[0].1));
      }
      assert |tables| <= |next| && next[..|tables|] == tables;
      DiscoverFoldExtends(es[1..], next);
      var out := DiscoverFold(es[1..], next).value;
      assert out[..|tables|] == out[..|next|][..|tables|];
    }
  }

  /** A null table that is discovered stays in the final list, where the diagram trips over it. */
  lemma NullTableKept(final: seq<TableSchema>, tables: seq<TableSchema>)
    requires |tables| <= |final| && final[..|tables|] == tables
    requires HasNullFields(tables)
    ensures HasNullFields(final)
  {
    var i :| 0 <= i < |tables| && tables[i].fields.JNull?;
    assert final[i] == final[..|tables|][i];
  }

  /** A top-level array whose element 0 is null is registered with null fields, and stays. */
  lemma NullSampleKept(es: seq<(string, Json)>, tables: seq<TableSchema>)
    requires es != [] && es[0].1.JArr? && |es[0].1.elems| > 0 && es[0].1.elems[0] == JNull
    requires DiscoverFold(es, tables).Ok?
    ensures HasNullFields(DiscoverFold(es, tables).value)
  {
    var next := tables + [TableSchema(es[0].0, JNull)];
    assert DiscoverStep(tables, es[0]) == Ok(next);
    DiscoverFoldExtends(es[1..], next);
    assert next[|tables|].fields.JNull?;
    NullTableKept(DiscoverFold(es[1..], next).value, next);
  }

  lemma {:induction false} DiscoverFoldAccepts(es: seq<(string, Json)>, tables: seq<TableSchema>)
    requires DiscoverFold(es, tables).Ok? && !HasNullFields(DiscoverFold(es, tables).value)
    ensures forall j :: 0 <= j < |es| ==> AcceptedTopLevel(es[j].1)
  {
    if es != [] {
      var next := DiscoverStep(tables, es[0]).value;
      if es[0].1.JArr? && |es[0].1.elems| > 0 && es[0].1.elems[0] == JNull {
        NullSampleKept(es, tables);
        assert false;
      }
      DiscoverFoldAccepts(es[1..], next);
      forall j | 0 < j < |es|
        ensures AcceptedTopLevel(es[j].1)
      {
        assert es[j] == es[1..][j - 1];
      }
    }
  }

  /**
   * The diagram is the stricter generator: whenever it is produced, the SQL schema can be
   * generated too, over the same tables.
   */
  lemma DiagramImpliesSchema(root: Json, options: Options, parsesAsDate: string -> bool)
    requires MermaidOf(Ok(root)).Ok?
    ensures SchemaStatements(root, options, parsesAsDate).Ok?
    ensures DiscoverTables(root) == Ok(SchemaStatements(root, options, parsesAsDate).value.tables)
  {
    var tables := DiscoverTables(root).value;
    DiagramOutcome(tables);
    DiscoverFoldAccepts(root.members, []);
    SchemaSucceedsIff(root, options, parsesAsDate);
    GeneratorsAgree(root, options, parsesAsDate);
  }

  /**
   * The converse fails: a nested array whose element 0 is null gives the SQL generator a
   * table it can spread into, while the diagram calls `Object.entries` on null.
   */
  lemma NestedNullSampleDiverges(options: Options, parsesAsDate: string -> bool)
    ensures var root := JObj([("a", JObj([("b", JArr([JNull]))]))]);
      SchemaStatements(root, options, parsesAsDate).Ok? && MermaidOf(Ok(root)).Err?
  {
    var inner := JObj([("b", JArr([JNull]))]);
    var root := JObj([("a", inner)]);
    SchemaSucceedsIff(root, options, parsesAsDate);
    var first := [TableSchema("a", inner)];
    var found := first + [TableSchema("b", JNull)];
    assert !Registered(first, "b");
    assert NestedStep(first, ("b", JArr([JNull]))) == found;
    assert [("b", JArr([JNull]))][1..] == [];
    assert DiscoverNested(first, [("b", JArr([JNull]))]) == found;
    assert [] + first == first;
    assert DiscoverStep([], ("a", inner)) == Ok(found);
    assert [("a", inner)][1..] == [];
    assert DiscoverFold([("a", inner)], []) == Ok(found);
    assert DiscoverTables(root) == Ok(found);
    assert HasNullFields(first + [TableSchema("b", JNull)]) by {
      assert (first + [TableSchema("b", JNull)])[1].fields.JNull?;
    }
  }

  /**
   * Over the same field entries (those of a top-level object table), the diagram lists the
   * SQL columns except the JSONB columns of nested objects, and draws one nesting edge per
   * related table the SQL generator detects (whether or not its name was still free).
   */
  lemma DiagramMatchesTable(tableName: string, es: seq<(string, Json)>, options: Options, parsesAsDate: string -> bool)
    ensures |AttributeLines(es)| + Count(es, EntryIsNestedObject) == |FieldColumns(es, options, parsesAsDate)|
    ensures |StructuralEdges(tableName, es)| == |RelatedTablesOf(es)|
  {
    AttributeCount(es);
    FieldColumnCount(es, options, parsesAsDate);
    StructuralEdgeCount(tableName, es);
    RelatedTablesCount(es);
  }

  /**
   * Every failure carries the diagram's own prefix; a parse error keeps its message, and the
   * root checks reject an array, a primitive and null, each with its own message.
   */
  lemma MermaidErrors(parsed: Result<Json, string>)
    ensures MermaidOf(parsed).Err? ==> StartsWith(MermaidOf(parsed).error, MermaidErrorPrefix)
    ensures parsed.Err? ==> MermaidOf(parsed) == Err(MermaidErrorPrefix + parsed.error)
    ensures parsed.Ok? && parsed.value.JArr? ==> MermaidOf(parsed) == Err(MermaidErrorPrefix + MermaidMessage(RootIsArray))
    ensures parsed.Ok? && (parsed.value.JStr? || parsed.value.JNum? || parsed.value.JBool?) ==>
      MermaidOf(parsed) == Err(MermaidErrorPrefix + MermaidMessage(RootNotObject))
    ensures parsed.Ok? && parsed.value.JNull? ==> MermaidOf(parsed) == Err(MermaidErrorPrefix + MermaidMessage(EntriesOfNull))
  {
    var r := MermaidOf(parsed);
    if r.Err? {
      assert r.error[..|MermaidErrorPrefix|] == MermaidErrorPrefix;
    }
  }

  /**
   * A related table's statement is built from its fields plus `${parent}_id`; when that
   * key is new, the SQL table has one column more than the diagram's attributes and the
   * JSONB columns of nested objects.
   */
  lemma RelatedDiagramMatchesTable(fields: Json, parentName: string, options: Options, parsesAsDate: string -> bool)
    requires !HasKey(Entries(fields), parentName + "_id")
    ensures |AttributeLines(Entries(fields))| + Count(Entries(fields), EntryIsNestedObject) + 1
      == |FieldColumns(RelatedFields(fields, parentName), options, parsesAsDate)|
  {
    var es := Entries(fields);
    var extra := (parentName + "_id", JNum(0.0));
    assert RelatedFields(fields, parentName) == es + [extra];
    FieldColumnCount(es + [extra], options, parsesAsDate);
    CountAppend(es, [extra], EntryIsArrayOfObjects);
    CountSingle(extra, EntryIsArrayOfObjects);
    DiagramMatchesTable(parentName, es, options, parsesAsDate);
    FieldColumnCount(es, options, parsesAsDate);
  }
}
