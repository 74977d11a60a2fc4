/**
 * `detectRelationships` of the diagram generator: edges guessed from field names.
 * A field `${r}_id` points many-to-one at every table named `r`; a field named after
 * another table and holding an object (or null) points one-to-one at it.
 */
module MermaidRelationships {
  import opened Wrappers
  import opened Seqs
  import opened JsonValues
  import opened Tables
  import opened Naming

  datatype Kind = OneToOne | ManyToOne

  datatype Relationship = Relationship(from: string, to: string, kind: Kind)

  /** `tables.map((t) => toSnakeCase(t.tableName))`; duplicates are kept. */
  function TableNames(tables: seq<TableSchema>): seq<string>
  {
    seq(|tables|, i requires 0 <= i < |tables| => ToSnakeCase(tables[i].tableName))
  }

  /** The scan of the table names for one field: one edge per matching name, repeats included. */
  function ManyToOneRefs(tableName: string, fieldName: string, refs: seq<string>): seq<Relationship>
  {
    if refs == [] then []
    else
      (if fieldName == refs[0] + "_id" && refs[0] != tableName then [Relationship(tableName, refs[0], ManyToOne)] else [])
        + ManyToOneRefs(tableName, fieldName, refs[1..])
  }

  /** One field's edges: its many-to-one edges, then possibly a one-to-one edge. */
  function FieldRelationships(tableName: string, names: seq<string>, e: (string, Json)): seq<Relationship>
  {
    var field := ToSnakeCase(e.0);
    ManyToOneRefs(tableName, field, names)
      + (if field in names && field != tableName && (e.1.JObj? || e.1.JNull?)
         then [Relationship(tableName, field, OneToOne)] else [])
  }

  function TableRelationships(tableName: string, names: seq<string>, es: seq<(string, Json)>): seq<Relationship>
  {
    if es == [] then []
    else FieldRelationships(tableName, names, es[0]) + TableRelationships(tableName, names, es[1..])
  }

  function RelationshipsFrom(tables: seq<TableSchema>, names: seq<string>): seq<Relationship>
  {
    if tables == [] then []
    else
      TableRelationships(ToSnakeCase(tables[0].tableName), names, Entries(tables[0].fields))
        + RelationshipsFrom(tables[1..], names)
  }

  /** Every edge in order; `Object.keys(null)` throws for a table whose fields are null. */
  function Relationships(tables: seq<TableSchema>): Result<seq<Relationship>, Failure>
  {
    if HasNullFields(tables) then Err(EntriesOfNull) else Ok(RelationshipsFrom(tables, TableNames(tables)))
  }

  /** The innermost `forEach` over the table names. */
  method AddManyToOne(relationships: seq<Relationship>, tableName: string, fieldNameSnake: string, tableNames: seq<string>)
    returns (out: seq<Relationship>)
    ensures out == relationships + ManyToOneRefs(tableName, fieldNameSnake, tableNames)
  {
    out := relationships;
    var k := 0;
    while k < |tableNames|
      invariant 0 <= k <= |tableNames|
      invariant out + ManyToOneRefs(tableName, fieldNameSnake, tableNames[k..])
        == relationships + ManyToOneRefs(tableName, fieldNameSnake, tableNames)
    {
      var potentialRef := tableNames[k];
      ghost var rest := ManyToOneRefs(tableName, fieldNameSnake, tableNames[k + 1..]);
      assert tableNames[k..][0] == potentialRef && tableNames[k..][1..] == tableNames[k + 1..];
      if fieldNameSnake == potentialRef + "_id" && potentialRef != tableName {
        AppendAssoc(out, [Relationship(tableName, potentialRef, ManyToOne)], rest);
        out := out + [Relationship(tableName, potentialRef, ManyToOne)];
      }
      k := k + 1;
    }
    assert tableNames[k..] == [];
  }

  /** The callback for one field of one table. */
  method AddFieldRelationships(
    relationships: seq<Relationship>, tableName: string, tableNames: seq<string>, fieldName: string, value: Json)
    returns (out: seq<Relationship>)
    ensures out == relationships + FieldRelationships(tableName, tableNames, (fieldName, value))
  {
    var fieldNameSnake := ToSnakeCase(fieldName);
    out := AddManyToOne(relationships, tableName, fieldNameSnake, tableNames);
    if fieldNameSnake in tableNames && fieldNameSnake != tableName {
      if IsObjectType(value) && !value.JArr? {
        AppendAssoc(relationships, ManyToOneRefs(tableName, fieldNameSnake, tableNames), [Relationship(tableName, fieldNameSnake, OneToOne)]);
        out := out + [Relationship(tableName, fieldNameSnake, OneToOne)];
      }
    }
  }

  /** The `forEach` over the fields of one table. */
  method AddTableRelationships(
    relationships: seq<Relationship>, tableName: string, tableNames: seq<string>, entries: seq<(string, Json)>)
    returns (out: seq<Relationship>)
    ensures out == relationships + TableRelationships(tableName, tableNames, entries)
  {
    out := relationships;
    var j := 0;
    while j < |entries|
      invariant 0 <= j <= |entries|
      invariant out + TableRelationships(tableName, tableNames, entries[j..])
        == relationships + TableRelationships(tableName, tableNames, entries)
    {
      ghost var rest := TableRelationships(tableName, tableNames, entries[j + 1..]);
      assert TableRelationships(tableName, tableNames, entries[j..])
        == FieldRelationships(tableName, tableNames, entries[j]) + rest
      by {
        assert entries[j..][0] == entries[j] && entries[j..][1..] == entries[j + 1..];
      }
      AppendAssoc(out, FieldRelationships(tableName, tableNames, entries[j]), rest);
      out := AddFieldRelationships(out, tableName, tableNames, entries[j].0, entries[j].1);
      j := j + 1;
    }
    assert out == relationships + TableRelationships(tableName, tableNames, entries) by {
      assert entries[j..] == [];
    }
  }

  method DetectRelationships(tables: seq<TableSchema>) returns (r: Result<seq<Relationship>, Failure>)
    ensures r == Relationships(tables)
  {
    var relationships: seq<Relationship> := [];
    var tableNames := TableNames(tables);
    var i := 0;
    while i < |tables|
      invariant 0 <= i <= |tables|
      invariant forall j :: 0 <= j < i ==> !tables[j].fields.JNull?
      invariant relationships + RelationshipsFrom(tables[i..], tableNames) == RelationshipsFrom(tables, tableNames)
    {
      var table := tables[i];
      if table.fields.JNull? {
        assert HasNullFields(tables);
        return Err(EntriesOfNull);
      }
      var tableName := ToSnakeCase(table.tableName);
      var entries := Entries(table.fields);
      ghost var rest := RelationshipsFrom(tables[i + 1..], tableNames);
      assert RelationshipsFrom(tables[i..], tableNames) == TableRelationships(tableName, tableNames, entries) + rest by {
        assert tables[i..][0] == table && tables[i..][1..] == tables[i + 1..];
      }
      AppendAssoc(relationships, TableRelationships(tableName, tableNames, entries), rest);
      relationships := AddTableRelationships(relationships, tableName, tableNames, entries);
      i := i + 1;
    }
    assert relationships == RelationshipsFrom(tables, tableNames) by {
      assert tables[i..] == [];
    }
    assert !HasNullFields(tables);
    r := Ok(relationships);
  }

  // ---------------------------------------------------------------- properties

  lemma {:induction false} ManyToOneRefsMembers(tableName: string, fieldName: string, refs: seq<string>, r: Relationship)
    ensures r in ManyToOneRefs(tableName, fieldName, refs) <==>
      r.from == tableName && r.kind == ManyToOne && r.to in refs && fieldName == r.to + "_id" && r.to != tableName
  {
    if refs != [] {
      ManyToOneRefsMembers(tableName, fieldName, refs[1..], r);
      assert refs == [refs[0]] + refs[1..];
    }
  }

  /** Field `e` of table `tableName` gives rise to edge `r`. */
  ghost predicate FieldJustifies(tableName: string, names: seq<string>, e: (string, Json), r: Relationship)
  {
    && r.from == tableName && r.to in names && r.to != tableName
    && match r.kind
       case ManyToOne => ToSnakeCase(e.0) == r.to + "_id"
       case OneToOne => ToSnakeCase(e.0) == r.to && (e.1.JObj? || e.1.JNull?)
  }

  lemma FieldRelationshipsMembers(tableName: string, names: seq<string>, e: (string, Json), r: Relationship)
    ensures r in FieldRelationships(tableName, names, e) <==> FieldJustifies(tableName, names, e, r)
  {
    ManyToOneRefsMembers(tableName, ToSnakeCase(e.0), names, r);
  }

  lemma {:induction false} TableRelationshipsMembers(tableName: string, names: seq<string>, es: seq<(string, Json)>, r: Relationship)
    ensures r in TableRelationships(tableName, names, es) <==>
      exists j :: 0 <= j < |es| && FieldJustifies(tableName, names, es[j], r)
  {
    if es != [] {
      FieldRelationshipsMembers(tableName, names, es[0], r);
      TableRelationshipsMembers(tableName, names, es[1..], r);
      if exists j :: 0 <= j < |es| && FieldJustifies(tableName, names, es[j], r) {
        var j :| 0 <= j < |es| && FieldJustifies(tableName, names, es[j], r);
        if j > 0 {
          assert es[1..][j - 1] == es[j];
        }
      }
      if exists j :: 0 <= j < |es[1..]| && FieldJustifies(tableName, names, es[1..][j], r) {
        var j :| 0 <= j < |es[1..]| && FieldJustifies(tableName, names, es[1..][j], r);
        assert es[j + 1] == es[1..][j];
      }
    }
  }

  /** Some field of table `t` gives rise to edge `r`. */
  ghost predicate TableJustifies(t: TableSchema, names: seq<string>, r: Relationship)
  {
    exists j :: 0 <= j < |Entries(t.fields)| && FieldJustifies(ToSnakeCase(t.tableName), names, Entries(t.fields)[j], r)
  }

  lemma {:induction false} RelationshipsFromMembers(tables: seq<TableSchema>, names: seq<string>, r: Relationship)
    ensures r in RelationshipsFrom(tables, names) <==> exists i :: 0 <= i < |tables| && TableJustifies(tables[i], names, r)
  {
    if tables != [] {
      TableRelationshipsMembers(ToSnakeCase(tables[0].tableName), names, Entries(tables[0].fields), r);
      RelationshipsFromMembers(tables[1..], names, r);
      if exists i :: 0 <= i < |tables| && TableJustifies(tables[i], names, r) {
        var i :| 0 <= i < |tables| && TableJustifies(tables[i], names, r);
        if i > 0 {
          assert tables[1..][i - 1] == tables[i];
        }
      }
      if exists i :: 0 <= i < |tables[1..]| && TableJustifies(tables[1..][i], names, r) {
        var i :| 0 <= i < |tables[1..]| && TableJustifies(tables[1..][i], names, r);
        assert tables[i + 1] == tables[1..][i];
      }
    }
  }

  /**
   * An edge is detected exactly when some field of some table justifies it: a field
   * `${to}_id` for a many-to-one edge, a field `to` holding an object or null for a
   * one-to-one edge, where `to` is another table's snake-cased name.
   */
  lemma RelationshipsMembers(tables: seq<TableSchema>, r: Relationship)
    requires Relationships(tables).Ok?
    ensures r in Relationships(tables).value <==>
      exists i :: 0 <= i < |tables| && TableJustifies(tables[i], TableNames(tables), r)
  {
    RelationshipsFromMembers(tables, TableNames(tables), r);
  }

  /** Both ends of every edge are table names, and no table points at itself. */
  lemma RelationshipEndpoints(tables: seq<TableSchema>, r: Relationship)
    requires Relationships(tables).Ok? && r in Relationships(tables).value
    ensures r.from != r.to
    ensures r.from in TableNames(tables) && r.to in TableNames(tables)
  {
    RelationshipsMembers(tables, r);
    var i :| 0 <= i < |tables| && TableJustifies(tables[i], TableNames(tables), r);
    assert TableNames(tables)[i] == r.from;
  }

  /** How many fields have the snake-cased name `${to}_id`. */
  function IdFieldCount(es: seq<(string, Json)>, to: string): nat
  {
    if es == [] then 0
    else (if ToSnakeCase(es[0].0) == to + "_id" then 1 else 0) + IdFieldCount(es[1..], to)
  }

  /**
   * Nothing is deduplicated: a field `${to}_id` yields the many-to-one edge to `to` once per
   * occurrence of `to` among the table names.
   */
  lemma {:induction false} ManyToOneRefsMultiplicity(tableName: string, fieldName: string, refs: seq<string>, to: string)
    ensures multiset(ManyToOneRefs(tableName, fieldName, refs))[Relationship(tableName, to, ManyToOne)]
      == if fieldName == to + "_id" && to != tableName then multiset(refs)[to] else 0
  {
    if refs != [] {
      ManyToOneRefsMultiplicity(tableName, fieldName, refs[1..], to);
      assert refs == [refs[0]] + refs[1..];
    }
  }

  lemma Distribute(m: nat, b: nat, k: nat)
    ensures m * (b + k) == m * b + m * k
  {
  }

  /** One field contributes the many-to-one edge to `to` once per occurrence of `to`, if it is named `${to}_id`. */
  lemma FieldManyToOneMultiplicity(tableName: string, names: seq<string>, e: (string, Json), to: string)
    requires to != tableName
    ensures multiset(FieldRelationships(tableName, names, e))[Relationship(tableName, to, ManyToOne)]
      == if ToSnakeCase(e.0) == to + "_id" then multiset(names)[to] else 0
  {
    var field := ToSnakeCase(e.0);
    ManyToOneRefsMultiplicity(tableName, field, names, to);
  }

  /**
   * Within one table, the many-to-one edge to another table `to` occurs once for every pair
   * of a field `${to}_id` and an occurrence of `to` among the table names.
   */
  lemma {:induction false} TableManyToOneMultiplicity(tableName: string, names: seq<string>, es: seq<(string, Json)>, to: string)
    requires to != tableName
    ensures multiset(TableRelationships(tableName, names, es))[Relationship(tableName, to, ManyToOne)]
      == multiset(names)[to] * IdFieldCount(es, to)
  {
    if es != [] {
      var edge := Relationship(tableName, to, ManyToOne);
      var head := FieldRelationships(tableName, names, es[0]);
      var rest := TableRelationships(tableName, names, es[1..]);
      assert TableRelationships(tableName, names, es) == head + rest;
      FieldManyToOneMultiplicity(tableName, names, es[0], to);
      TableManyToOneMultiplicity(tableName, names, es[1..], to);
      assert multiset(head + rest) == multiset(head) + multiset(rest);
      var m := multiset(names)[to];
      var b := if ToSnakeCase(es[0].0) == to + "_id" then 1 else 0;
      var k := IdFieldCount(es[1..], to);
      assert IdFieldCount(es, to) == b + k;
      Distribute(m, b, k);
    }
  }
}
