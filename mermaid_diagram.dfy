/**
 * `inferSimpleType` and `generateMermaidDiagram`: the text of a Mermaid ER diagram,
 * one entity block per table, then the edges implied by nesting, then the edges
 * guessed from field names.
 */
module MermaidDiagram {
  import opened Wrappers
  import opened Seqs
  import opened Ascii
  import opened JsonValues
  import opened Tables
  import opened Naming
  import opened SqlTypes
  import opened MermaidRelationships

  const EmptyDiagram := "erDiagram\n  %% No tables to display"
  const DiagramHeader := "erDiagram\n"

  /** The coarse type shown in the diagram; strings are not tested for dates or UUIDs. */
  function InferSimpleType(v: Json): (r: string)
    ensures r == "TEXT" <==> v.JNull?
    ensures r == "VARCHAR" <==> v.JStr?
    ensures r == "BOOLEAN" <==> v.JBool?
    ensures r == "ARRAY" <==> v.JArr?
    ensures r == "JSONB" <==> v.JObj?
    ensures r in {"INT", "DECIMAL"} <==> v.JNum?
  {
    match v
    case JNull => "TEXT"
    case JStr(_) => "VARCHAR"
    case JNum(x) => if IsInteger(x) then "INT" else "DECIMAL"
    case JBool(_) => "BOOLEAN"
    case JArr(_) => "ARRAY"
    case JObj(_) => "JSONB"
  }

  /** A field listed inside its entity: anything but a non-null object or a non-empty array of objects. */
  predicate IsAttribute(value: Json)
  {
    !IsNestedObject(value) && !IsArrayOfObjects(value)
  }

  function KeyType(name: string): string
  {
    if EndsWith(name, "_id") then "FK" else ""
  }

  /** `    <type> <name> <FK or nothing>`; the separator before the key type is always there. */
  function AttributeLine(fieldName: string, value: Json): string
  {
    var name := ToSnakeCase(fieldName);
    "    " + Lower(InferSimpleType(value)) + " " + name + " " + KeyType(name) + "\n"
  }

  function AttributeLines(es: seq<(string, Json)>): seq<string>
  {
    if es == [] then []
    else
      (if IsAttribute(es[0].1) then [AttributeLine(es[0].0, es[0].1)] else [])
        + AttributeLines(es[1..])
  }

  function BlockHeader(tableName: string): string
  {
    "\n  " + Upper(ToSnakeCase(tableName)) + " {\n" + "    int id PK\n"
  }

  const BlockFooter := "    timestamp created_at\n    timestamp updated_at\n  }\n"

  /** The footer is written as three appends. */
  lemma FooterParts(s: string)
    ensures s + "    timestamp created_at\n" + "    timestamp updated_at\n" + "  }\n" == s + BlockFooter
  {
  }

  /** The entity block of one table. */
  function TableBlock(t: TableSchema): string
  {
    BlockHeader(t.tableName) + Concat(AttributeLines(Entries(t.fields))) + BlockFooter
  }

  function Blocks(tables: seq<TableSchema>): seq<string>
  {
    if tables == [] then [] else [TableBlock(tables[0])] + Blocks(tables[1..])
  }

  /** The edge a field implies by nesting: "has many" for an array of objects, "has one" for an object. */
  function StructuralEdges(tableName: string, es: seq<(string, Json)>): seq<string>
  {
    if es == [] then []
    else
      (if IsArrayOfObjects(es[0].1) then
         ["\n  " + Upper(tableName) + " ||--o{ " + Upper(ToSnakeCase(es[0].0)) + " : \"has many\""]
       else if IsNestedObject(es[0].1) then
         ["\n  " + Upper(tableName) + " ||--|| " + Upper(ToSnakeCase(es[0].0)) + " : \"has one\""]
       else [])
        + StructuralEdges(tableName, es[1..])
  }

  function AllStructuralEdges(tables: seq<TableSchema>): seq<string>
  {
    if tables == [] then []
    else StructuralEdges(ToSnakeCase(tables[0].tableName), Entries(tables[0].fields)) + AllStructuralEdges(tables[1..])
  }

  function Symbol(kind: Kind): string
  {
    match kind
    case OneToOne => "||--||"
    case ManyToOne => "}o--||"
  }

  function ReferenceLine(rel: Relationship): string
  {
    "\n  " + Upper(rel.from) + " " + Symbol(rel.kind) + " " + Upper(rel.to) + " : \"references\""
  }

  function ReferenceLines(rels: seq<Relationship>): seq<string>
  {
    if rels == [] then [] else [ReferenceLine(rels[0])] + ReferenceLines(rels[1..])
  }

  /**
   * The whole diagram; with no tables a fixed placeholder. The first table whose fields
   * are null makes `Object.entries` throw.
   */
  function Diagram(tables: seq<TableSchema>): Result<string, Failure>
  {
    if tables == [] then Ok(EmptyDiagram)
    else if HasNullFields(tables) then Err(EntriesOfNull)
    else
      Ok(DiagramHeader + Concat(Blocks(tables)) + Concat(AllStructuralEdges(tables))
        + Concat(ReferenceLines(RelationshipsFrom(tables, TableNames(tables)))))
  }

  // ---------------------------------------------------------------- methods

  /** The attribute text from entry `j` on is entry `j`'s line, if any, then the rest. */
  lemma AttributeTextStep(es: seq<(string, Json)>, j: nat)
    requires j < |es|
    ensures Concat(AttributeLines(es[j..])) ==
      (if IsAttribute(es[j].1) then AttributeLine(es[j].0, es[j].1) else "") + Concat(AttributeLines(es[j + 1..]))
  {
    assert es[j..][0] == es[j] && es[j..][1..] == es[j + 1..];
    var head := if IsAttribute(es[j].1) then [AttributeLine(es[j].0, es[j].1)] else [];
    ConcatAppend(head, AttributeLines(es[j + 1..]));
    if IsAttribute(es[j].1) {
      ConcatSingle(AttributeLine(es[j].0, es[j].1));
    }
  }

  /** The entity block of one table, appended line by line. */
  method AppendTableBlock(code: string, table: TableSchema) returns (out: string)
    ensures out == code + TableBlock(table)
  {
    out := code + BlockHeader(table.tableName);
    ghost var start := out;
    var entries := Entries(table.fields);
    var j := 0;
    while j < |entries|
      invariant 0 <= j <= |entries|
      invariant out + Concat(AttributeLines(entries[j..])) == start + Concat(AttributeLines(entries))
    {
      var fieldName := entries[j].0;
      var value := entries[j].1;
      AttributeTextStep(entries, j);
      if IsAttribute(value) {
        AppendAssoc(out, AttributeLine(fieldName, value), Concat(AttributeLines(entries[j + 1..])));
        out := out + AttributeLine(fieldName, value);
      }
      j := j + 1;
    }
    assert out == start + Concat(AttributeLines(entries)) by {
      assert entries[j..] == [];
    }
    FooterParts(out);
    AppendAssoc(code, BlockHeader(table.tableName), Concat(AttributeLines(entries)));
    AppendAssoc(code, BlockHeader(table.tableName) + Concat(AttributeLines(entries)), BlockFooter);
    out := out + "    timestamp created_at\n";
    out := out + "    timestamp updated_at\n";
    out := out + "  }\n";
  }

  lemma StructuralTextStep(tableName: string, es: seq<(string, Json)>, j: nat)
    requires j < |es|
    ensures Concat(StructuralEdges(tableName, es[j..])) ==
      (if IsArrayOfObjects(es[j].1) then
         "\n  " + Upper(tableName) + " ||--o{ " + Upper(ToSnakeCase(es[j].0)) + " : \"has many\""
       else if IsNestedObject(es[j].1) then
         "\n  " + Upper(tableName) + " ||--|| " + Upper(ToSnakeCase(es[j].0)) + " : \"has one\""
       else "")
        + Concat(StructuralEdges(tableName, es[j + 1..]))
  {
    assert es[j..][0] == es[j] && es[j..][1..] == es[j + 1..];
    var rest := StructuralEdges(tableName, es[j + 1..]);
    if IsArrayOfObjects(es[j].1) {
      var edge := "\n  " + Upper(tableName) + " ||--o{ " + Upper(ToSnakeCase(es[j].0)) + " : \"has many\"";
      ConcatAppend([edge], rest);
      ConcatSingle(edge);
    } else if IsNestedObject(es[j].1) {
      var edge := "\n  " + Upper(tableName) + " ||--|| " + Upper(ToSnakeCase(es[j].0)) + " : \"has one\"";
      ConcatAppend([edge], rest);
      ConcatSingle(edge);
    } else {
      assert StructuralEdges(tableName, es[j..]) == rest;
    }
  }

  /** The nesting edges of one table. */
  method AppendStructuralEdges(code: string, tableName: string, entries: seq<(string, Json)>) returns (out: string)
    ensures out == code + Concat(StructuralEdges(tableName, entries))
  {
    out := code;
    var j := 0;
    while j < |entries|
      invariant 0 <= j <= |entries|
      invariant out + Concat(StructuralEdges(tableName, entries[j..])) == code + Concat(StructuralEdges(tableName, entries))
    {
      var fieldName := entries[j].0;
      var value := entries[j].1;
      StructuralTextStep(tableName, entries, j);
      var edge := "";
      if IsArrayOfObjects(value) {
        edge := "\n  " + Upper(tableName) + " ||--o{ " + Upper(ToSnakeCase(fieldName)) + " : \"has many\"";
      } else if IsNestedObject(value) {
        edge := "\n  " + Upper(tableName) + " ||--|| " + Upper(ToSnakeCase(fieldName)) + " : \"has one\"";
      }
      AppendAssoc(out, edge, Concat(StructuralEdges(tableName, entries[j + 1..])));
      out := out + edge;
      j := j + 1;
    }
    assert entries[j..] == [];
  }

  lemma ReferenceTextStep(rels: seq<Relationship>, k: nat)
    requires k < |rels|
    ensures Concat(ReferenceLines(rels[k..])) == ReferenceLine(rels[k]) + Concat(ReferenceLines(rels[k + 1..]))
  {
    assert rels[k..][0] == rels[k] && rels[k..][1..] == rels[k + 1..];
    ConcatAppend([ReferenceLine(rels[k])], ReferenceLines(rels[k + 1..]));
    ConcatSingle(ReferenceLine(rels[k]));
  }

  /** The edges guessed from field names. */
  method AppendReferences(code: string, relationships: seq<Relationship>) returns (out: string)
    ensures out == code + Concat(ReferenceLines(relationships))
  {
    out := code;
    var k := 0;
    while k < |relationships|
      invariant 0 <= k <= |relationships|
      invariant out + Concat(ReferenceLines(relationships[k..])) == code + Concat(ReferenceLines(relationships))
    {
      var rel := relationships[k];
      var symbol := if rel.kind == OneToOne then "||--||" else "}o--||";
      var line := "\n  " + Upper(rel.from) + " " + symbol + " " + Upper(rel.to) + " : \"references\"";
      ReferenceTextStep(relationships, k);
      assert line == ReferenceLine(rel);
      AppendAssoc(out, line, Concat(ReferenceLines(relationships[k + 1..])));
      out := out + line;
      k := k + 1;
    }
    assert relationships[k..] == [];
  }

  /** The first `forEach`: every entity block, stopping at the first table whose fields are null. */
  method AppendBlocks(code: string, tables: seq<TableSchema>) returns (r: Result<string, Failure>)
    ensures HasNullFields(tables) ==> r == Err(EntriesOfNull)
    ensures !HasNullFields(tables) ==> r == Ok(code + Concat(Blocks(tables)))
  {
    var mermaidCode := code;
    var i := 0;
    while i < |tables|
      invariant 0 <= i <= |tables|
      invariant forall j :: 0 <= j < i ==> !tables[j].fields.JNull?
      invariant mermaidCode + Concat(Blocks(tables[i..])) == code + Concat(Blocks(tables))
    {
      if tables[i].fields.JNull? {
        assert HasNullFields(tables);
        return Err(EntriesOfNull);
      }
      ghost var tail := Blocks(tables[i + 1..]);
      assert Concat(Blocks(tables[i..])) == TableBlock(tables[i]) + Concat(tail) by {
        assert tables[i..][0] == tables[i] && tables[i..][1..] == tables[i + 1..];
        ConcatAppend([TableBlock(tables[i])], tail);
        ConcatSingle(TableBlock(tables[i]));
      }
      AppendAssoc(mermaidCode, TableBlock(tables[i]), Concat(tail));
      mermaidCode := AppendTableBlock(mermaidCode, tables[i]);
      i := i + 1;
    }
    assert mermaidCode == code + Concat(Blocks(tables)) by {
      assert tables[i..] == [];
    }
    assert !HasNullFields(tables);
    r := Ok(mermaidCode);
  }

  /** The second `forEach`: the nesting edges of every table. */
  method AppendAllStructuralEdges(code: string, tables: seq<TableSchema>) returns (out: string)
    ensures out == code + Concat(AllStructuralEdges(tables))
  {
    out := code;
    var i := 0;
    while i < |tables|
      invariant 0 <= i <= |tables|
      invariant out + Concat(AllStructuralEdges(tables[i..])) == code + Concat(AllStructuralEdges(tables))
    {
      var tableName := ToSnakeCase(tables[i].tableName);
      var entries := Entries(tables[i].fields);
      ghost var tail := AllStructuralEdges(tables[i + 1..]);
      assert Concat(AllStructuralEdges(tables[i..])) == Concat(StructuralEdges(tableName, entries)) + Concat(tail) by {
        assert tables[i..][0] == tables[i] && tables[i..][1..] == tables[i + 1..];
        ConcatAppend(StructuralEdges(tableName, entries), tail);
      }
      AppendAssoc(out, Concat(StructuralEdges(tableName, entries)), Concat(tail));
      out := AppendStructuralEdges(out, tableName, entries);
      i := i + 1;
    }
    assert tables[i..] == [];
  }

  method GenerateMermaidDiagram(tables: seq<TableSchema>) returns (r: Result<string, Failure>)
    ensures r == Diagram(tables)
  {
    if |tables| == 0 {
      return Ok(EmptyDiagram);
    }
    var blocks := AppendBlocks(DiagramHeader, tables);
    if blocks.Err? {
      return blocks;
    }
    var relationships := DetectRelationships(tables);
    var mermaidCode := AppendAllStructuralEdges(blocks.value, tables);
    mermaidCode := AppendReferences(mermaidCode, relationships.value);
    r := Ok(mermaidCode);
  }

  // ---------------------------------------------------------------- properties

  /**
   * The diagram type is a coarsening of the column type: integer, decimal and boolean
   * agree exactly, null stays text, objects stay JSONB, and arrays and strings collapse
   * several column types into one.
   */
  lemma SimpleTypeCoarsensColumnType(v: Json, parsesAsDate: string -> bool)
    ensures InferSimpleType(v) == "INT" <==> InferPostgresType(v, parsesAsDate) == "INTEGER"
    ensures InferSimpleType(v) == "DECIMAL" <==> InferPostgresType(v, parsesAsDate) == "DECIMAL(10,2)"
    ensures InferSimpleType(v) == "BOOLEAN" <==> InferPostgresType(v, parsesAsDate) == "BOOLEAN"
    ensures InferSimpleType(v) == "TEXT" ==> InferPostgresType(v, parsesAsDate) == "TEXT"
    ensures InferSimpleType(v) == "JSONB" ==> InferPostgresType(v, parsesAsDate) == "JSONB"
    ensures InferSimpleType(v) == "VARCHAR" ==>
      InferPostgresType(v, parsesAsDate) in {"TIMESTAMP", "UUID", "TEXT", "VARCHAR(255)"}
    ensures InferSimpleType(v) == "ARRAY" ==>
      InferPostgresType(v, parsesAsDate) == "JSONB" || EndsWith(InferPostgresType(v, parsesAsDate), "[]")
  {
    var t := InferPostgresType(v, parsesAsDate);
    if v.JArr? && |v.elems| > 0 {
      var inner := InferPostgresType(v.elems[0], parsesAsDate);
      assert t == inner + "[]";
      assert t[|t| - 1] == ']';
      assert t[|t| - 2..] == "[]";
    }
  }

  /** Fields holding an object or a non-empty array of objects are left out; every other field is listed. */
  lemma {:induction false} AttributeCount(es: seq<(string, Json)>)
    ensures |AttributeLines(es)| == |es| - Count(es, EntryIsArrayOfObjects) - Count(es, EntryIsNestedObject)
  {
    if es != [] {
      AttributeCount(es[1..]);
    }
  }

  lemma {:induction false} AttributeLinesMembers(es: seq<(string, Json)>, line: string)
    ensures line in AttributeLines(es) <==>
      exists j :: 0 <= j < |es| && IsAttribute(es[j].1) && line == AttributeLine(es[j].0, es[j].1)
  {
    if es != [] {
      AttributeLinesMembers(es[1..], line);
      if exists j :: 0 <= j < |es| && IsAttribute(es[j].1) && line == AttributeLine(es[j].0, es[j].1) {
        var j :| 0 <= j < |es| && IsAttribute(es[j].1) && line == AttributeLine(es[j].0, es[j].1);
        if j > 0 {
          assert es[1..][j - 1] == es[j];
        }
      }
      if exists j :: 0 <= j < |es[1..]| && IsAttribute(es[1..][j].1) && line == AttributeLine(es[1..][j].0, es[1..][j].1) {
        var j :| 0 <= j < |es[1..]| && IsAttribute(es[1..][j].1) && line == AttributeLine(es[1..][j].0, es[1..][j].1);
        assert es[j + 1] == es[1..][j];
      }
    }
  }

  /** An attribute is marked FK exactly when its snake-cased name ends in `_id`. */
  lemma ForeignKeyMarking(fieldName: string, value: Json)
    ensures EndsWith(AttributeLine(fieldName, value), "FK\n") <==> EndsWith(ToSnakeCase(fieldName), "_id")
  {
    var line := AttributeLine(fieldName, value);
    var name := ToSnakeCase(fieldName);
    var prefix := "    " + Lower(InferSimpleType(value)) + " " + name + " ";
    if EndsWith(name, "_id") {
      assert line == prefix + "FK\n";
      assert line[|line| - 3..] == "FK\n";
    } else {
      assert line == prefix + "\n";
      assert line[|line| - 2] == ' ';
    }
  }

  /** One nesting edge per field holding an object or a non-empty array of objects. */
  lemma {:induction false} StructuralEdgeCount(tableName: string, es: seq<(string, Json)>)
    ensures |StructuralEdges(tableName, es)| == Count(es, EntryIsArrayOfObjects) + Count(es, EntryIsNestedObject)
  {
    if es != [] {
      StructuralEdgeCount(tableName, es[1..]);
    }
  }

  /**
   * With no tables the diagram is the placeholder; otherwise it fails exactly when some
   * table's fields are null, and always starts with the `erDiagram` header line.
   */
  lemma DiagramOutcome(tables: seq<TableSchema>)
    ensures tables == [] ==> Diagram(tables) == Ok(EmptyDiagram)
    ensures Diagram(tables).Ok? <==> !HasNullFields(tables)
    ensures Diagram(tables).Ok? ==> StartsWith(Diagram(tables).value, "erDiagram")
  {
    if tables == [] {
      assert EmptyDiagram[..9] == "erDiagram";
    } else if !HasNullFields(tables) {
      var blocks := Concat(Blocks(tables));
      var edges := Concat(AllStructuralEdges(tables));
      var references := Concat(ReferenceLines(RelationshipsFrom(tables, TableNames(tables))));
      assert Diagram(tables) == Ok(DiagramHeader + blocks + edges + references);
      assert DiagramHeader[..9] == "erDiagram";
      StartsWithAppend(DiagramHeader, blocks, "erDiagram");
      StartsWithAppend(DiagramHeader + blocks, edges, "erDiagram");
      StartsWithAppend(DiagramHeader + blocks + edges, references, "erDiagram");
    }
  }
}
