# dbt-bq-sourcegen: the reconciliation core and the YAML document mapping, in Dafny

dbt-bq-sourcegen keeps a dbt "sources" YAML document in step with a BigQuery dataset. It works
in two parts, and this project models both:

- Reconciliation (`logic/merge_strategy.py`) merges three inputs: a snapshot of the dataset's
  tables and columns, the existing document (which may be absent), and two prune flags. It
  works in four layers: column, table, source and whole document.
  - Output order follows the snapshot, and entries that exist only in the document come after.
  - A non-empty description in the document wins over the remote one.
  - The user's `meta`, `tests` and `identifier` are carried over unchanged.
  - Pruning removes exactly the entries that are absent from the snapshot.
  - Sources that do not match are passed through.
- The pure half of the YAML handler (`io/yaml_handler.py`) has two directions:
  - `_serialize_source_file` writes the document model to an ordered key/value tree. Keys come
    in a fixed order, and empty optional fields are left out.
  - `_parse_source_file` reads a tree back. Missing keys get defaults, and `name` is required.

Files:

- `wrappers.dfy`: `Option` and `Result`.
- `yaml_tree.dfy`: the YAML tree, as an ordered list of `(key, value)` pairs plus lists,
  strings, integers, booleans, null and an opaque scalar. It also defines Python truthiness and
  `mapping.get`, which finds the first occurrence of a key.
- `dbt_model.dfy`: the BigQuery snapshot and the dbt document model.
- `merge_strategy.dfy`:
  - Each of the four merge functions is a method with the source's loops. Each is proved equal
    to a specification function (`MergedColumns`, `MergedTable`, `MergedSource`,
    `MergedSourceFile`).
  - The dict comprehensions become `Index`. A later entry with the same name overwrites an
    earlier one.
  - The "not in the snapshot" filters become `Unmatched`.
- `merge_properties.dfy`: what reconciliation promises, proved about the specification
  functions. This includes idempotence at every layer.
- `yaml_handler.dfy`: serialisation (`SerializeSourceFile`, `SerializeSource`,
  `SerializeTable`, `SerializeColumns`) and parsing (`ParseSourceFile`, `ParseSource`,
  `ParseTable`), as methods with the source's nested loops. Each is proved
  equal to a tree or parse function.
- `yaml_properties.dfy`: key order, omitted keys, parse defaults, the required name, order
  preservation and the write→read round trip.

When several existing sources match the target (by name or by schema), the code reassigns
`yaml_source` on every match (`merge_strategy.py:185-187`), so the **last** match is merged.
The earlier matching sources end up in neither `yaml_source` nor `other_sources`, so they are
dropped from the output. `LastMatch`, `OtherSources`, `LastMatchWins` and
`MergedSourceFileShape` state this behaviour.

## Model

| member | source | states |
|---|---|---|
| MergeStrategy.IndexKeys | src/dbt_bq_sourcegen/logic/merge_strategy.py:25-26 | a name is a key of the comprehension-built dict exactly when some entry carries it |
| MergeStrategy.IndexLastWins | src/dbt_bq_sourcegen/logic/merge_strategy.py:25-26 | for a duplicated name, the dict holds the last entry with that name |
| MergeStrategy.Describe | src/dbt_bq_sourcegen/logic/merge_strategy.py:38 | `existing or remote or ""`: a non-empty existing description wins, else a non-empty remote one, and the result is empty only when both are |
| MergeStrategy.BuildIndex | src/dbt_bq_sourcegen/logic/merge_strategy.py:25-26 | the loop building the name→entry dict yields the last-write-wins index |
| MergeStrategy.AppendUnmatched | src/dbt_bq_sourcegen/logic/merge_strategy.py:49-52 | the loop appends exactly the entries whose name is not in the snapshot, in their order |
| MergeStrategy.MergeColumns | src/dbt_bq_sourcegen/logic/merge_strategy.py:10-54 | the loops compute the snapshot-ordered merged columns, followed (unless pruning) by the document-only columns |
| MergeStrategy.MergeTable | src/dbt_bq_sourcegen/logic/merge_strategy.py:57-93 | the result is the builder's table when there is no existing table, otherwise the merged table |
| MergeStrategy.MergeSources | src/dbt_bq_sourcegen/logic/merge_strategy.py:96-152 | the loops compute the merged source: fresh source when absent, tables in snapshot order, then unmatched document tables |
| MergeStrategy.MergeSourceFile | src/dbt_bq_sourcegen/logic/merge_strategy.py:155-208 | the loop selecting the target source (last match) and collecting the others computes the merged document |
| MergeProperties.IndexKeySet | src/dbt_bq_sourcegen/logic/merge_strategy.py:25-26 | the dict's key set is the set of names in the list |
| MergeProperties.IndexValueKey | src/dbt_bq_sourcegen/logic/merge_strategy.py:25-26 | every dict value is a list entry filed under its own name |
| MergeProperties.UnmatchedMembers | src/dbt_bq_sourcegen/logic/merge_strategy.py:49-52 | an entry is kept exactly when it is in the list and its name is not in the snapshot |
| MergeProperties.UnmatchedKeepsAll | src/dbt_bq_sourcegen/logic/merge_strategy.py:49-52 | when no name is in the snapshot, the filter keeps the whole list |
| MergeProperties.UnmatchedDropsAll | src/dbt_bq_sourcegen/logic/merge_strategy.py:49-52 | when every name is in the snapshot, the filter keeps nothing |
| MergeProperties.MergedColumnsPrefix | src/dbt_bq_sourcegen/logic/merge_strategy.py:31-46 | one output per snapshot column, in order; a matched column (last document column of that name) takes name and type from the snapshot, keeps description unless empty, and keeps meta and tests; an unmatched one is the builder's column |
| MergeProperties.MergedColumnsSuffix | src/dbt_bq_sourcegen/logic/merge_strategy.py:49-54 | with pruning the output has exactly as many columns as the snapshot; without it, what follows the prefix is exactly the document columns absent from the snapshot, unchanged and in their order |
| MergeProperties.DescribeIdempotent | src/dbt_bq_sourcegen/logic/merge_strategy.py:38 | applying the description fallback twice changes nothing |
| MergeProperties.RemoteColumnsStable | src/dbt_bq_sourcegen/logic/merge_strategy.py:31-46 | each merged column is named after its snapshot column and is left unchanged by merging it again |
| MergeProperties.RemergeColumns | src/dbt_bq_sourcegen/logic/merge_strategy.py:31-52 | re-merging the merged columns finds each snapshot-driven column under its own name and gives it back, and keeps exactly the kept document columns |
| MergeProperties.MergedColumnsIdempotent | src/dbt_bq_sourcegen/logic/merge_strategy.py:31-52 | merging the merged columns again against the same snapshot and flag returns them unchanged, given unique snapshot column names |
| MergeProperties.MergedTableFields | src/dbt_bq_sourcegen/logic/merge_strategy.py:72-93 | no existing table gives the builder's table; otherwise name, identifier, meta and tests come from the existing table, the description follows the fallback, the columns are merged, and a missing column list behaves as an empty one |
| MergeProperties.MergedTableIdempotent | src/dbt_bq_sourcegen/logic/merge_strategy.py:57-93 | merging a merged table again returns it unchanged |
| MergeProperties.MergedSourceRemoteTables | src/dbt_bq_sourcegen/logic/merge_strategy.py:128-137 | one table per snapshot table in snapshot order; the document table merged in is the last one whose name equals the table id (never via identifier); an unmatched id gets the builder's table |
| MergeProperties.RemoteTablesStable | src/dbt_bq_sourcegen/logic/merge_strategy.py:128-137 | each snapshot-driven table is named after its snapshot table and is left unchanged by merging it again |
| MergeProperties.RemergeTables | src/dbt_bq_sourcegen/logic/merge_strategy.py:128-144 | re-merging the merged tables finds each snapshot-driven table under its own name and gives it back, and keeps exactly the kept document tables |
| MergeProperties.MergedSourcePrunedTables | src/dbt_bq_sourcegen/logic/merge_strategy.py:139-143 | with pruning there are exactly as many tables as in the snapshot; without it the document tables absent from the snapshot follow, unchanged and in order |
| MergeProperties.MergedSourceFields | src/dbt_bq_sourcegen/logic/merge_strategy.py:119-152 | name, description and meta come from the existing source; database and schema fall back to project and dataset when empty; with no source, name, database and schema come from the arguments |
| MergeProperties.MergedSourceIdempotent | src/dbt_bq_sourcegen/logic/merge_strategy.py:96-152 | merging a merged source again returns it unchanged, given unique table ids and column names |
| MergeProperties.LastMatchWins | src/dbt_bq_sourcegen/logic/merge_strategy.py:185-187 | the selected source is None exactly when nothing matches, otherwise it is a matching source with no match after it |
| MergeProperties.OtherSourcesMembers | src/dbt_bq_sourcegen/logic/merge_strategy.py:185-189 | a source is passed through exactly when it is in the document and does not match |
| MergeProperties.OtherSourcesKeepsAll | src/dbt_bq_sourcegen/logic/merge_strategy.py:185-189 | when nothing matches, all sources pass through in order |
| MergeProperties.MergedSourceFileShape | src/dbt_bq_sourcegen/logic/merge_strategy.py:178-208 | version is kept (2 without a document); the output is the non-matching sources in order followed by exactly one merged source, so its length is their count plus one |
| MergeProperties.MergedSourceMatches | src/dbt_bq_sourcegen/logic/merge_strategy.py:145-148 | the merged source itself matches the target name or dataset |
| MergeProperties.MergedSourceFileIdempotent | src/dbt_bq_sourcegen/logic/merge_strategy.py:155-208 | reconciling the reconciled document against the same snapshot returns it unchanged |
| YamlHandler.SerializeColumns | src/dbt_bq_sourcegen/io/yaml_handler.py:165-182 | the column loop writes one mapping per column, in order (`ColumnNodes`) |
| YamlHandler.SerializeTable | src/dbt_bq_sourcegen/io/yaml_handler.py:151-184 | a table is written as its own keys followed by `columns` exactly when it has columns (`TableNode`) |
| YamlHandler.SerializeSource | src/dbt_bq_sourcegen/io/yaml_handler.py:135-184 | a source is written as its own keys followed by all its tables, in order (`SourceNode`) |
| YamlHandler.SerializeSourceFile | src/dbt_bq_sourcegen/io/yaml_handler.py:121-188 | the loop over sources builds the document tree (`FileNode`) |
| YamlHandler.ParseEachStopsAt | src/dbt_bq_sourcegen/io/yaml_handler.py:79-114 | parsing a list stops at the first failing item and reports its error |
| YamlHandler.ParseTable | src/dbt_bq_sourcegen/io/yaml_handler.py:82-104 | the column loop and table construction compute `TableFromNode`, including every error path |
| YamlHandler.ParseSource | src/dbt_bq_sourcegen/io/yaml_handler.py:79-114 | the table loop and source construction compute `SourceFromNode`, including every error path |
| YamlHandler.ParseSourceFile | src/dbt_bq_sourcegen/io/yaml_handler.py:68-119 | the source loop and document construction compute `FileFromNode`, including every error path |
| YamlProperties.ColumnLookup | src/dbt_bq_sourcegen/io/yaml_handler.py:169-180 | a written column holds its name, and data_type, description, meta and tests only when set and non-empty, each with the field's value |
| YamlProperties.ColumnKeys | src/dbt_bq_sourcegen/io/yaml_handler.py:169-180 | column keys are name, data_type, description, meta, tests in that order, each optional one present only when set |
| YamlProperties.ColumnKeysPresent | src/dbt_bq_sourcegen/io/yaml_handler.py:173-180 | each optional column key is written if and only if its field is set and non-empty |
| YamlProperties.TableHeadLookup | src/dbt_bq_sourcegen/io/yaml_handler.py:152-163 | a written table holds its name, and identifier, description, meta and tests only when set and non-empty |
| YamlProperties.TableHeadKeys | src/dbt_bq_sourcegen/io/yaml_handler.py:152-163 | table keys before `columns` are name, identifier, description, meta, tests in that order |
| YamlProperties.TableLookup | src/dbt_bq_sourcegen/io/yaml_handler.py:165-182 | `columns` holds the written columns in order when the table has any, and is absent otherwise |
| YamlProperties.TableKeys | src/dbt_bq_sourcegen/io/yaml_handler.py:152-166 | table keys are name, identifier, description, meta, tests, columns in that order, each optional one present only when set |
| YamlProperties.TableKeysPresent | src/dbt_bq_sourcegen/io/yaml_handler.py:156-166 | each optional table key, and `columns`, is written if and only if its field is set and non-empty |
| YamlProperties.SourceHeadLookup | src/dbt_bq_sourcegen/io/yaml_handler.py:136-147 | a written source holds its name, and database, schema, description and meta only when set and non-empty |
| YamlProperties.SourceHeadKeys | src/dbt_bq_sourcegen/io/yaml_handler.py:136-147 | source keys before `tables` are name, database, schema, description, meta in that order |
| YamlProperties.SourceLookup | src/dbt_bq_sourcegen/io/yaml_handler.py:149-184 | `tables` always holds the written tables in order |
| YamlProperties.SourceKeys | src/dbt_bq_sourcegen/io/yaml_handler.py:136-149 | source keys are name, database, schema, description, meta, tables in that order; `tables` is always present |
| YamlProperties.SourceKeysPresent | src/dbt_bq_sourcegen/io/yaml_handler.py:140-149 | each optional source key is written if and only if its field is set and non-empty; `name` and `tables` always; never `schema_name` |
| YamlProperties.FileKeys | src/dbt_bq_sourcegen/io/yaml_handler.py:130-133 | document keys are version then sources |
| YamlProperties.SchemaKey | src/dbt_bq_sourcegen/io/yaml_handler.py:142-143 | `schema_name` is written under "schema" and read back from "schema" (line 109) |
| YamlProperties.ColumnDefaults | src/dbt_bq_sourcegen/io/yaml_handler.py:87-93 | missing description reads as "", missing data_type, meta and tests as None |
| YamlProperties.NameOnlyColumn | src/dbt_bq_sourcegen/io/yaml_handler.py:87-93 | a column mapping holding only a name reads with every other field at its default |
| YamlProperties.TableDefaults | src/dbt_bq_sourcegen/io/yaml_handler.py:85-103 | missing description reads as "", missing identifier, meta and tests as None, a missing or falsy `columns` as the empty list |
| YamlProperties.NameOnlyTable | src/dbt_bq_sourcegen/io/yaml_handler.py:85-103 | a table mapping holding only a name reads with no columns and defaults elsewhere |
| YamlProperties.SourceDefaults | src/dbt_bq_sourcegen/io/yaml_handler.py:106-113 | missing description reads as "", missing database, schema and meta as None, missing tables as none |
| YamlProperties.NameOnlySource | src/dbt_bq_sourcegen/io/yaml_handler.py:106-113 | a source mapping holding only a name reads with no tables and defaults elsewhere |
| YamlProperties.FileDefaults | src/dbt_bq_sourcegen/io/yaml_handler.py:116-119 | missing version reads as 2, missing sources as none; the empty mapping is the empty version-2 document |
| YamlProperties.ParseEachFailsIfAnyFails | src/dbt_bq_sourcegen/io/yaml_handler.py:79-114 | one item that fails to parse makes the whole list fail |
| YamlProperties.NameRequired | src/dbt_bq_sourcegen/io/yaml_handler.py:79-107 | a column, table or source mapping without `name` fails to parse, and so does a table, source or document whose `columns`, `tables` or `sources` list holds such a mapping, whatever its other keys |
| YamlProperties.NestedFailure | src/dbt_bq_sourcegen/io/yaml_handler.py:79-114 | a column, table or source that fails to parse makes the table, source or document holding it fail, so an error at any depth reaches the document |
| YamlProperties.ParseEachInOrder | src/dbt_bq_sourcegen/io/yaml_handler.py:79-114 | a parsed list has one result per item, item i giving result i |
| YamlProperties.ParseEachAllOk | src/dbt_bq_sourcegen/io/yaml_handler.py:79-114 | a list whose items all parse gives their results in the same order |
| YamlProperties.ColumnRoundTrip | src/dbt_bq_sourcegen/io/yaml_handler.py:168-182 | a written column reads back as itself with empty optional values absent |
| YamlProperties.TableColumnsRoundTrip | src/dbt_bq_sourcegen/io/yaml_handler.py:165-182 | the written column list is found under `columns` and reads back column by column, in order |
| YamlProperties.TableFieldsRoundTrip | src/dbt_bq_sourcegen/io/yaml_handler.py:151-164 | a written table's own fields read back as themselves with empty optional values absent |
| YamlProperties.TableRoundTrip | src/dbt_bq_sourcegen/io/yaml_handler.py:151-184 | a written table reads back as itself with empty optional values absent and its columns, in order, always present |
| YamlProperties.SourceFieldsRoundTrip | src/dbt_bq_sourcegen/io/yaml_handler.py:136-148 | a written source's own fields read back as themselves with empty optional values absent |
| YamlProperties.SourceRoundTrip | src/dbt_bq_sourcegen/io/yaml_handler.py:135-186 | a written source reads back with its tables in order |
| YamlProperties.FileRoundTrip | tests/io/test_yaml_handler.py:17-74 | reading back a written document gives it with empty optional values absent and every column list present; sources, tables and columns keep their order |
| YamlProperties.RoundTrip | tests/io/test_yaml_handler.py:17-74 | a document whose optional values are absent or non-empty and whose tables carry a column list reads back exactly as written |
| YamlProperties.EmptyColumnsRoundTrip | tests/io/test_yaml_handler.py:125-147 | a table written with no columns reads back with the empty column list |

## Left out

- File I/O in `read_source_file` and `write_source_file` (`yaml_handler.py:27-66`) is not
  modelled. This covers `Path.exists`, opening files, `mkdir` and logging errors. The model
  starts from an already-loaded tree and stops at the tree to be dumped.
- The ruamel.yaml configuration and text layout (`yaml_handler.py:17-25`) are not modelled:
  indentation, quoting and width belong to a foreign library.
- `cli.py` and the BigQuery client are not part of this model. They are command-line wiring
  and a network API.
- `build_column_from_bigquery` and `build_table_from_bigquery` live in a file that is not part
  of this model. They are function-valued parameters (`ColumnBuilder`, `TableBuilder`), and
  nothing is assumed about their output.
  - The idempotence lemmas take stability of the builders' output as an explicit hypothesis
    (`FreshColumnIsStable`, `FreshTableIsStable`).
- The pydantic type definitions are not part of this model. Field validation is modelled as
  follows:
  - A field whose value has the wrong kind is an `InvalidField` error. `meta` and `tests`
    are opaque and accept any value; only null reads as None.
  - A null optional text field, or a null `meta` or `tests`, reads as None.
  - A null `description` is an error.
  - `version` must be an integer; pydantic's lax coercion of strings such as "2" is not
    modelled.
- `Truthy` treats every opaque scalar (floats, dates and the like) as truthy. A YAML `0.0`
  would be falsy in Python.
- A YAML mapping with a repeated key is read using the first occurrence. How ruamel.yaml
  resolves duplicate keys is left out.
- Exceptions are modelled as error values. `ParseError` records the kind of failure, not the
  Python exception type or message.
- Parsing and serialisation are each split into one method per nesting level, where the
  source has one function with nested loops. The loops and their order are the same.
