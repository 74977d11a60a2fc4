/** The discovered-table record both generators build, and the "already registered" test. */
module Tables {
  import opened JsonValues

  /** `{ tableName, fields }`; `fields` is the representative value (an object, or null or an array). */
  datatype TableSchema = TableSchema(tableName: string, fields: Json)

  /** `tables.find((t) => t.tableName === name)` finds something. */
  predicate Registered(tables: seq<TableSchema>, name: string)
  {
    exists i :: 0 <= i < |tables| && tables[i].tableName == name
  }

  /** Some table's fields are null, so `Object.entries(table.fields)` throws on it. */
  predicate HasNullFields(tables: seq<TableSchema>)
  {
    exists i :: 0 <= i < |tables| && tables[i].fields.JNull?
  }
}
