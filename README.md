# json-to-postgres, modelled in Dafny

json-to-postgres turns a JSON document into two texts:

- a PostgreSQL schema (`utils/jsonToSql.ts`);
- a Mermaid entity-relationship diagram (`utils/generateMermaid.ts`).

Each top-level key of the document names a table. Nested objects and arrays of objects become related tables. Column types are guessed from the sample values.

This project models both generators after `JSON.parse`. The input is a parsed value of the closed datatype `Json`, whose objects list their members in `Object.entries` order, or a parse error. Every thrown error becomes the `Err` case of a `Result`.

Parts the source writes as loops become methods. They push to arrays, append to strings or register with a find-before-push check. Each method is proved equal to a recursive specification function, and the lemmas state properties of those functions.

Modules:

- `Wrappers`: the `Result` type.
- `Seqs`: join, concatenation, counting and prefix helpers.
- `Ascii`: ASCII case mapping.
- `JsonValues`: the `Json` datatype, JavaScript's `typeof`/`Array.isArray` tests, and `Object.entries` together with the object spread.
- `Tables`: the `{tableName, fields}` record.
- `Naming`: `toSnakeCase`. It is defined once because the two source copies are character-for-character the same, so they agree on every string by construction.
- `SqlTypes`: `inferPostgresType`, `isDateString` and `isUUID`.
- `SqlTable`: `generateColumnDefinition` and `jsonToPostgresTable`.
- `SqlSchema`: `detectRelatedTables` and `convertJsonToPostgres`.
- `MermaidRelationships`: `detectRelationships`.
- `MermaidDiagram`: `inferSimpleType` and `generateMermaidDiagram`.
- `MermaidDiscovery`: `jsonToMermaid`, and how its table list relates to the SQL generator's.

Code quirks the model follows:

- `typeof x === 'object'` also holds for `null` and for arrays. So `[null]` and `[[1]]` count as arrays of objects, and a null top-level value is registered as a table. `Object.entries(null)` then throws; the model reports this as `EntriesOfNull`, with V8's message.
- Top-level tables are registered without the duplicate check. Only nested tables are deduplicated.
- A nested object becomes both a JSONB column and a related table.
- Foreign-key constraint names are always snake-cased, whatever `useSnakeCase` says.
- The diagram generator treats a null field as a one-to-one reference (`typeof null === 'object'`). Its attribute line keeps a trailing space when the field is not marked `FK`.
- A table whose fields are null stops the diagram (`Object.entries(null)`). The SQL generator instead spreads `{...null}` into an empty object for a related table. For this reason the diagram succeeds on strictly fewer inputs than the schema (`MermaidDiscovery.NestedNullSampleDiverges`).

## Model

| member | source | states |
|---|---|---|
| Naming.ToSnakeCase | utils/jsonToSql.ts:70-75 | the result contains no ASCII capital letter |
| Naming.UnderscoredAppend | utils/jsonToSql.ts:72 | the global replace that inserts `_` before capitals distributes over concatenation |
| Naming.UnderscoredWithoutUpper | utils/jsonToSql.ts:72 | a string without capitals is unchanged by that replace |
| Naming.SnakeCaseFixesLowerNames | utils/jsonToSql.ts:70-75 | a name with no capitals that does not start with `_` is returned unchanged |
| Naming.SnakeCaseIdempotent | utils/jsonToSql.ts:70-75 | snake-casing twice equals snake-casing once if and only if the first result does not start with `_` |
| Naming.SnakeCaseNotInjective | utils/jsonToSql.ts:70-75 | two different names can share a snake case: `aB` and `a_b` both become `a_b` |
| Naming.SnakeCaseNotIdempotent | utils/jsonToSql.ts:70-75 | `"__a"` becomes `"_a"` and then `"a"`, because only one leading underscore is stripped |
| Naming.SnakeCaseAppendId | utils/jsonToSql.ts:206 | for a non-empty parent, snake-casing `${parent}_id` gives the snake-cased parent followed by `_id` |
| Naming.SnakeCaseEmptyParentId | utils/jsonToSql.ts:206 | for an empty parent name, the foreign-key column collapses to `id` |
| SqlTypes.InferPostgresType | utils/jsonToSql.ts:14-55 | the type ends in `[]` exactly for a non-empty array; every other value gets one of the eight scalar type names (case by case in NonStringTypes, StringTypes, ArrayTypeNesting, TypeLastChar) |
| SqlTypes.IsDateString | utils/jsonToSql.ts:57-60 | a date string is one the date parser accepts whose first ten characters are `dddd-dd-dd`; nothing after them is checked |
| SqlTypes.IsUuid | utils/jsonToSql.ts:62-65 | a UUID is 36 characters long and never has a date prefix, so the order of the two string tests is immaterial |
| SqlTypes.UuidCaseInsensitive | utils/jsonToSql.ts:62-65 | the `i` flag: a string is a UUID exactly when its lower-cased form is |
| SqlTypes.NonStringTypes | utils/jsonToSql.ts:14-55 | case table of the definition, for reading: null is TEXT; numbers are INTEGER or DECIMAL(10,2) by integrality; booleans are BOOLEAN; objects and empty arrays are JSONB; a non-empty array is element 0's type followed by `[]` |
| SqlTypes.StringTypes | utils/jsonToSql.ts:22-32 | case table of the definition, for reading: TIMESTAMP iff the date parses and has a yyyy-mm-dd prefix; else UUID iff it is hex 8-4-4-4-12; else VARCHAR(255) iff the length is at most 255; else TEXT (all four as iffs) |
| SqlTypes.ArrayTypeNesting | utils/jsonToSql.ts:41-46 | every type is the innermost sample's scalar type followed by one `[]` per array level |
| SqlTypes.TypeLastChar | utils/jsonToSql.ts:14-55 | every inferred type is non-empty and does not end in `L` |
| SqlTable.ColumnDefinition | utils/jsonToSql.ts:80-90 | a column line ends in ` NOT NULL` exactly when its sample value is not null (relies on TypeLastChar) |
| SqlTable.AddFieldColumns | utils/jsonToSql.ts:115-121 | the loop appends one column per field in entry order, skipping non-empty arrays whose element 0 is object-typed |
| SqlTable.JsonToPostgresTable | utils/jsonToSql.ts:95-131 | null data fails; otherwise the statement is CREATE TABLE over the primary key, the kept fields and the two timestamps, in that order |
| SqlTable.FieldColumnCount | utils/jsonToSql.ts:115-121 | kept columns = fields minus fields holding a non-empty array of objects |
| SqlTable.ColumnCount | utils/jsonToSql.ts:107-127 | column count = pk + kept fields + 2·timestamps; the primary key comes first and created_at, updated_at come last |
| SqlTable.FieldColumnsHasField | utils/jsonToSql.ts:115-121 | every field that is not a non-empty array of objects has its column line |
| SqlSchema.DetectRelatedTables | utils/jsonToSql.ts:136-163 | the loop builds the related-table list; null data fails |
| SqlSchema.RelatedTablesMembers | utils/jsonToSql.ts:142-160 | a table is related iff some field is a non-empty array of objects (table = element 0) or a nested object (table = the object) |
| SqlSchema.RelatedTablesCount | utils/jsonToSql.ts:142-160 | related-table count = arrays-of-objects fields + nested-object fields |
| SqlSchema.FieldsBecomeColumnsOrTables | utils/jsonToSql.ts:115-121 | no field is dropped: columns + related tables = fields + nested objects |
| SqlSchema.AddRelatedTables | utils/jsonToSql.ts:199-223 | the inner loop registers each related table whose name is new, with its CREATE TABLE and its foreign-key constraint |
| SqlSchema.AddTopLevelEntry | utils/jsonToSql.ts:189-233 | an object entry gives its table, its statement and its related tables; a null entry fails (`Object.entries(null)`); an array whose element 0 is object-typed gives one table, and if element 0 is null it fails; anything else is skipped |
| SqlSchema.AddTopLevelEntries | utils/jsonToSql.ts:188-234 | the outer loop processes the entries in order and stops at the first failure |
| SqlSchema.AppendIndexes | utils/jsonToSql.ts:238-248 | the index loop appends the specified index block |
| SqlSchema.ConvertJsonToPostgres | utils/jsonToSql.ts:168-259 | the root checks, the table loop, the index comment and the index loop give exactly the specified schema, joined by blank lines, or the wrapped error |
| SqlSchema.RegisteredInLonger | utils/jsonToSql.ts:200 | a registered name stays registered as more tables are pushed |
| SqlSchema.RegisterRelatedFirstWins | utils/jsonToSql.ts:199-222 | a related table is registered; the whole registry (tables and statements) is unchanged if its name was taken; otherwise the table is appended and the statements gain its CREATE TABLE and then its foreign-key constraint |
| SqlSchema.RegisterAllExtends | utils/jsonToSql.ts:199-223 | registering related tables keeps the earlier tables first, in order |
| SqlSchema.RegisterAllRegisters | utils/jsonToSql.ts:199-223 | afterwards every related table's name is registered |
| SqlSchema.RegisterTwoNew | utils/jsonToSql.ts:199-223 | two related tables whose distinct raw names are both new are both registered, each followed by its CREATE TABLE and its foreign key, in order |
| SqlSchema.RegisterAllNameCollision | utils/jsonToSql.ts:199-223 | the duplicate check compares raw names: under `p`, nested `aB` and `a_b` are both registered, both get the constraint `fk_a_b_p`, and with snake case on both get `CREATE TABLE a_b` |
| SqlSchema.RegisterAllFirstWins | utils/jsonToSql.ts:199-223 | each added table comes from the related list and has a name no earlier table has |
| SqlSchema.CreateTableKind | utils/jsonToSql.ts:129 | a table statement is a CREATE TABLE and neither an index nor the index comment |
| SqlSchema.ForeignKeyKind | utils/jsonToSql.ts:214-219 | the ALTER TABLE constraint is neither a CREATE TABLE, an index nor the comment |
| SqlSchema.IndexKind | utils/jsonToSql.ts:244-246 | case table of the definition, for reading: an index line is a CREATE INDEX and nothing else |
| SqlSchema.PairedAppend | utils/jsonToSql.ts:190-195 | pushing one table together with exactly one CREATE TABLE keeps tables and statements paired |
| SqlSchema.EntryStep | utils/jsonToSql.ts:189-233 | one top-level entry fails exactly when its value is null or an array whose element 0 is null (`Object.entries(null)`) |
| SqlSchema.EntryStepPaired | utils/jsonToSql.ts:188-234 | each top-level entry keeps one CREATE TABLE per registered table |
| SqlSchema.EntriesFoldPaired | utils/jsonToSql.ts:188-234 | the whole top-level loop keeps that pairing |
| SqlSchema.IndexStatementsCount | utils/jsonToSql.ts:238-248 | the index loop emits one CREATE INDEX per table when timestamps are on, otherwise none |
| SqlSchema.IndexBlockCounts | utils/jsonToSql.ts:237-248 | appending the comment and the index block gives the final counts |
| SqlSchema.SchemaCounts | utils/jsonToSql.ts:188-251 | CREATE TABLE count = tables; CREATE INDEX count = tables or 0; the comment appears once, immediately before the index block |
| SqlSchema.EntriesFoldSucceedsIff | utils/jsonToSql.ts:188-234 | the top-level loop succeeds iff no value is null or an array whose element 0 is null |
| SqlSchema.SchemaSucceedsIff | utils/jsonToSql.ts:172-234 | a parsed root succeeds iff it is an object whose values are all accepted |
| SqlSchema.SchemaErrorPrefix | utils/jsonToSql.ts:254-258 | every error starts with `Failed to parse JSON: `; a parse error is that prefix plus its own message |
| SqlSchema.SchemaRootErrors | utils/jsonToSql.ts:177-185 | case table of the definition, for reading: a root array, a primitive root and a null root fail with their respective messages |
| SqlSchema.ForeignKeyColumn | utils/jsonToSql.ts:204-211 | a related table's statement has the column `${parent}_id INTEGER NOT NULL`; for a non-empty parent name with snake case on, it is the snake-cased parent plus `_id` |
| SqlSchema.ForeignKeyColumnWithoutSnakeCase | utils/jsonToSql.ts:206-218 | with snake case off, the column and the constraint's column agree iff snake-casing leaves the parent unchanged |
| MermaidRelationships.AddManyToOne | utils/generateMermaid.ts:58-69 | the scan of table names appends a many-to-one edge for every name r with field = `r_id` and r ≠ the table |
| MermaidRelationships.AddFieldRelationships | utils/generateMermaid.ts:55-81 | one field appends its many-to-one edges, then a one-to-one edge when it names another table and holds a non-array object or null |
| MermaidRelationships.AddTableRelationships | utils/generateMermaid.ts:54-82 | the loop over one table's fields appends every field's edges in order |
| MermaidRelationships.DetectRelationships | utils/generateMermaid.ts:43-86 | the three nested loops give exactly the specified edges; fields that are null fail |
| MermaidRelationships.ManyToOneRefsMembers | utils/generateMermaid.ts:58-69 | an edge is many-to-one from the table iff its target is a listed name r ≠ the table with field = `r_id` |
| MermaidRelationships.FieldRelationshipsMembers | utils/generateMermaid.ts:55-81 | a field yields exactly its many-to-one edges and, for a value that is another table's name holding an object or null, a one-to-one edge |
| MermaidRelationships.TableRelationshipsMembers | utils/generateMermaid.ts:54-82 | a table's edges are exactly those some field justifies |
| MermaidRelationships.RelationshipsFromMembers | utils/generateMermaid.ts:51-83 | the edge list holds exactly the edges some field of some table justifies |
| MermaidRelationships.RelationshipsMembers | utils/generateMermaid.ts:43-86 | a detected edge is one justified by some table's field |
| MermaidRelationships.RelationshipEndpoints | utils/generateMermaid.ts:59-79 | both ends of every edge are table names, and no edge is a self-loop |
| MermaidRelationships.ManyToOneRefsMultiplicity | utils/generateMermaid.ts:58-69 | nothing is deduplicated: the many-to-one edge to `to` occurs once per occurrence of `to` among the table names when the field is `${to}_id` |
| MermaidRelationships.FieldManyToOneMultiplicity | utils/generateMermaid.ts:55-81 | one field yields the many-to-one edge to another table `to` exactly as many times as `to` occurs among the names, and only if the field is `${to}_id` |
| MermaidRelationships.TableManyToOneMultiplicity | utils/generateMermaid.ts:54-82 | within one table, the many-to-one edge to `to` occurs (occurrences of `to` among the names) × (fields named `${to}_id`) times |
| MermaidDiagram.AppendTableBlock | utils/generateMermaid.ts:99-136 | one entity block: uppercased name, `int id PK`, attribute lines, the two timestamps, the closing brace |
| MermaidDiagram.AppendStructuralEdges | utils/generateMermaid.ts:145-159 | a table's nesting edges: "has many" for arrays of objects, "has one" for objects |
| MermaidDiagram.AppendReferences | utils/generateMermaid.ts:163-172 | one "references" line per detected edge, in order |
| MermaidDiagram.AppendBlocks | utils/generateMermaid.ts:99-136 | every entity block in table order, or the error at a table whose fields are null |
| MermaidDiagram.AppendAllStructuralEdges | utils/generateMermaid.ts:142-160 | the nesting edges of every table in order |
| MermaidDiagram.GenerateMermaidDiagram | utils/generateMermaid.ts:91-175 | the placeholder for no tables; otherwise the header, blocks, nesting edges and reference edges, in that order |
| MermaidDiagram.InferSimpleType | utils/generateMermaid.ts:16-38 | each of TEXT, VARCHAR, BOOLEAN, ARRAY and JSONB is given exactly for null, strings, booleans, arrays and objects, and INT or DECIMAL exactly for numbers (against the SQL types: SimpleTypeCoarsensColumnType) |
| MermaidDiagram.SimpleTypeCoarsensColumnType | utils/generateMermaid.ts:16-38 | INT, DECIMAL and BOOLEAN agree with the SQL type both ways; TEXT, JSONB, VARCHAR and ARRAY each cover the listed SQL types |
| MermaidDiagram.AttributeCount | utils/generateMermaid.ts:107-129 | attributes = fields minus nested objects minus non-empty arrays of objects |
| MermaidDiagram.AttributeLinesMembers | utils/generateMermaid.ts:107-129 | a line is listed iff some attribute field produces it |
| MermaidDiagram.ForeignKeyMarking | utils/generateMermaid.ts:124-128 | a line is marked FK iff the snake-cased name ends in `_id` |
| MermaidDiagram.StructuralEdgeCount | utils/generateMermaid.ts:145-159 | nesting edges = arrays-of-objects fields + nested-object fields |
| MermaidDiagram.DiagramOutcome | utils/generateMermaid.ts:91-175 | no tables gives `erDiagram\n  %% No tables to display`; the diagram succeeds iff no table's fields are null; every diagram starts with `erDiagram` |
| MermaidDiscovery.DiscoverNestedTables | utils/generateMermaid.ts:199-213 | the nested scan adds each array-of-objects or object field as a table unless its name is taken |
| MermaidDiscovery.JsonToMermaid | utils/generateMermaid.ts:180-228 | the discovery loop and the generator give exactly the specified diagram or the wrapped error |
| MermaidDiscovery.NestedAgrees | utils/generateMermaid.ts:199-213 | the diagram's nested scan registers the same tables as the schema's related-table registration |
| MermaidDiscovery.EntryStepAgrees | utils/generateMermaid.ts:194-219 | where the schema step succeeds, the diagram's step for a top-level entry registers the same tables |
| MermaidDiscovery.EntriesFoldAgrees | utils/generateMermaid.ts:194-220 | the same holds for the whole top-level loop |
| MermaidDiscovery.GeneratorsAgree | utils/generateMermaid.ts:180-222 | whenever the schema succeeds, the diagram's tables equal the schema's `tables`, in order |
| MermaidDiscovery.DiscoverNestedExtends | utils/generateMermaid.ts:199-213 | discovery only appends tables |
| MermaidDiscovery.DiscoverFoldExtends | utils/generateMermaid.ts:194-220 | the top-level loop only appends tables |
| MermaidDiscovery.NullTableKept | utils/generateMermaid.ts:194-220 | a discovered table with null fields stays in the final list |
| MermaidDiscovery.NullSampleKept | utils/generateMermaid.ts:214-218 | a top-level array whose element 0 is null is registered with null fields |
| MermaidDiscovery.DiscoverFoldAccepts | utils/generateMermaid.ts:194-220 | if the diagram gets tables without null fields, every top-level value is accepted by the schema generator |
| MermaidDiscovery.DiagramImpliesSchema | utils/generateMermaid.ts:180-228 | whenever the diagram is produced, the schema is produced too, over the same tables |
| MermaidDiscovery.NestedNullSampleDiverges | utils/generateMermaid.ts:200-202 | `{"a": {"b": [null]}}` has a schema but no diagram |
| MermaidDiscovery.DiagramMatchesTable | utils/generateMermaid.ts:107-159 | over the same field entries (those of a top-level object table): attributes + nested objects = SQL columns, and nesting edges = related tables the SQL generator detects |
| MermaidDiscovery.RelatedDiagramMatchesTable | utils/jsonToSql.ts:204-211 | for a related table whose fields have no `${parent}_id` key yet, the SQL table has one column more than attributes + nested objects |
| MermaidDiscovery.MermaidErrors | utils/generateMermaid.ts:185-191 | case table of the definition, for reading: every error starts with `Failed to generate Mermaid diagram: `; root array, primitive and null fail with their respective messages |

## Left out

- The React pages, the settings form and the diagram renderer (components/, app/) are not part of this model. The only fact used from them is that the caller always passes all three options as booleans.
- store/useConverterStore.ts is a setter wrapper. Only its `TableSchema` shape is modelled.
- `JSON.parse` is not modelled. The input is either a parsed value or a parse error with its message. Integer-like keys coming first in `Object.entries` and later duplicate keys winning are left to the parser.
- `new Date(value)` validity depends on the JavaScript engine. It is the parameter `parsesAsDate`, combined with the `\d{4}-\d{2}-\d{2}` prefix check that is modelled exactly.
- Numbers are reals: `Number.isInteger` is "equal to its floor". IEEE rounding and overflow to Infinity are not modelled.
- `toLowerCase`/`toUpperCase` are modelled on ASCII letters only, and lengths count characters rather than UTF-16 code units.
- `Object.entries` on strings, numbers and booleans gives no entries in the model. Neither generator passes such a value, because both first check `typeof === 'object'`.
- The TypeError text of `Object.entries(null)` is the V8 wording. Other engines word it differently.
- MermaidDiagram.ReferenceLine: the source's third edge symbol `||--o{` cannot arise, because `detectRelationships` only produces one-to-one and many-to-one edges. The edge kind is a two-valued datatype.
- MermaidRelationships.FieldRelationships: `table.fields[fieldName]` is read as the entry's own value. A parsed object has distinct keys, so the two are the same.
- `undefined` cannot come out of `JSON.parse` and is not modelled.
- SqlSchema.RegisterAll: table and foreign-key constraint names are not collision-free within one run. The duplicate check compares raw names (utils/jsonToSql.ts:199), but the emitted names are snake-cased (utils/jsonToSql.ts:106, 214-218). Two nested names with the same snake case, such as `aB` and `a_b`, therefore emit the same `ALTER TABLE … ADD CONSTRAINT` twice, and with snake case on the same `CREATE TABLE` twice. The model keeps this behaviour, and RegisterAllNameCollision exhibits it. No corrected registry is modelled, because the intended fix (compare snake-cased names, or reject the clash) is not evident from the source.
- MermaidDiscovery.DiagramMatchesTable: the column-versus-attribute comparison is stated for one entry list (a top-level object table) and for a related table whose `${parent}_id` key is new. It does not cover a related table whose fields already have that key, nor tables the diagram draws but the SQL generator never creates. The SQL generator looks for related tables only one level below a top-level object and never inside a top-level array sample (utils/jsonToSql.ts:198, 224-232). The diagram still draws a nesting edge for every such field (utils/generateMermaid.ts:142-160), so an edge can point at an entity that is not a table.
