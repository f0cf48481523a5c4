/** The three-way reconciliation of a BigQuery snapshot with an optional dbt source document,
    in four layers: columns of one table, one table, one source, the whole document.
    Each layer is a specification function plus a method that builds the same result with the
    loops of the original; the properties of the specification are proved in MergeProperties. */
module MergeStrategy {
  import opened Wrappers
  import opened DbtModel

  /** The builders that turn a snapshot entry with no document counterpart into a new document
      entry. Their definitions are outside this model, so they are parameters. */
  type ColumnBuilder = BigQueryColumn -> DbtColumn
  type TableBuilder = BigQueryTable -> DbtTable

  // ---------------------------------------------------------------------------------------
  // Dictionary comprehensions and "not in the dictionary" filters
  // ---------------------------------------------------------------------------------------

  /** `{key(x): x for x in xs}`: a later entry with the same key overwrites an earlier one. */
  function Index<T>(xs: seq<T>, key: T -> string): map<string, T>
  {
    if xs == [] then map[]
    else Index(xs[..|xs| - 1], key)[key(xs[|xs| - 1]) := xs[|xs| - 1]]
  }

  /** `xs[i]` is the last entry of `xs` whose key is `key(xs[i])`. */
  predicate LastWithKey<T>(xs: seq<T>, key: T -> string, i: int)
  {
    0 <= i < |xs| && forall j :: i < j < |xs| ==> key(xs[j]) != key(xs[i])
  }

  /** The index holds exactly the keys that occur in `xs`. */
  lemma {:induction false} IndexKeys<T>(xs: seq<T>, key: T -> string, k: string)
    ensures k in Index(xs, key) <==> exists i :: 0 <= i < |xs| && key(xs[i]) == k
  {
    if xs != [] {
      var init := xs[..|xs| - 1];
      IndexKeys(init, key, k);
      if k in Index(init, key) {
        var i :| 0 <= i < |init| && key(init[i]) == k;
        assert key(xs[i]) == k;
      }
      if exists i :: 0 <= i < |xs| && key(xs[i]) == k {
        var i :| 0 <= i < |xs| && key(xs[i]) == k;
        if i < |init| {
          assert key(init[i]) == k;
        }
      }
    }
  }

  /** Last write wins: the index maps a key to the last entry carrying it. */
  lemma {:induction false} IndexLastWins<T>(xs: seq<T>, key: T -> string, i: int)
    requires LastWithKey(xs, key, i)
    ensures key(xs[i]) in Index(xs, key) && Index(xs, key)[key(xs[i])] == xs[i]
  {
    var n := |xs| - 1;
    if i < n {
      var init := xs[..n];
      assert key(xs[n]) != key(xs[i]);
      assert LastWithKey(init, key, i) by {
        forall j | i < j < |init| ensures key(init[j]) != key(init[i]) {
          assert init[j] == xs[j];
        }
      }
      IndexLastWins(init, key, i);
    }
  }

  /** The entries of `xs` whose key is not in `present`, in their original order. */
  function Unmatched<T>(xs: seq<T>, key: T -> string, present: set<string>): seq<T>
  {
    if xs == [] then []
    else Unmatched(xs[..|xs| - 1], key, present)
         + (if key(xs[|xs| - 1]) in present then [] else [xs[|xs| - 1]])
  }

  /** `get(m, k)`: the value under `k`, or None. */
  function Lookup<T>(m: map<string, T>, k: string): Option<T>
  {
    if k in m then Some(m[k]) else None
  }

  /** `doc or remote or ""`: the document's description unless it is empty, then the remote
      one unless it is absent or empty, then the empty string. */
  function Describe(doc: string, remote: Option<string>): (r: string)
    ensures doc != "" ==> r == doc
    ensures doc == "" && HasText(remote) ==> r == remote.value
    ensures r == "" <==> doc == "" && !HasText(remote)
  {
    if doc != "" then doc else if HasText(remote) then remote.value else ""
  }

  /** `database or project_id`, `schema_name or dataset_id`. */
  function OrDefault(o: Option<string>, default: string): string
  {
    if HasText(o) then o.value else default
  }

  // ---------------------------------------------------------------------------------------
  // merge_columns
  // ---------------------------------------------------------------------------------------

  /** A document column that matched BigQuery column `b`: name and type come from BigQuery,
      the description is kept unless empty, meta and tests are the document's. */
  function Refresh(existing: DbtColumn, b: BigQueryColumn): DbtColumn
  {
    DbtColumn(b.name, Some(b.fieldType), Describe(existing.description, b.description),
              existing.meta, existing.tests)
  }

  /** The merged entry for one BigQuery column, given the document columns indexed by name. */
  function MergeColumn(b: BigQueryColumn, existing: map<string, DbtColumn>, build: ColumnBuilder): DbtColumn
  {
    if b.name in existing then Refresh(existing[b.name], b) else build(b)
  }

  /** One merged column per BigQuery column, in BigQuery order. */
  function RemoteColumns(bq: seq<BigQueryColumn>, existing: map<string, DbtColumn>, build: ColumnBuilder): (r: seq<DbtColumn>)
    ensures |r| == |bq|
  {
    seq(|bq|, i requires 0 <= i < |bq| => MergeColumn(bq[i], existing, build))
  }

  /** The result of merge_columns. */
  function MergedColumns(bq: seq<BigQueryColumn>, yaml: seq<DbtColumn>, removeDeleted: bool, build: ColumnBuilder): seq<DbtColumn>
  {
    RemoteColumns(bq, Index(yaml, ColumnName), build)
    + (if removeDeleted then [] else Unmatched(yaml, ColumnName, Index(bq, BqColumnName).Keys))
  }

  /** A dictionary comprehension keyed by `key`, built by a loop. */
  method BuildIndex<T>(xs: seq<T>, key: T -> string) returns (m: map<string, T>)
    ensures m == Index(xs, key)
  {
    m := map[];
    for i := 0 to |xs|
      invariant m == Index(xs[..i], key)
    {
      assert xs[..i + 1][..i] == xs[..i];
      m := m[key(xs[i]) := xs[i]];
    }
    assert xs[..|xs|] == xs;
  }

  /** Appends to `acc` the entries of `xs` whose key is not in `present`. */
  method AppendUnmatched<T>(acc: seq<T>, xs: seq<T>, key: T -> string, present: set<string>) returns (r: seq<T>)
    ensures r == acc + Unmatched(xs, key, present)
  {
    r := acc;
    for j := 0 to |xs|
      invariant r == acc + Unmatched(xs[..j], key, present)
    {
      assert xs[..j + 1][..j] == xs[..j];
      if key(xs[j]) !in present {
        r := r + [xs[j]];
      }
    }
    assert xs[..|xs|] == xs;
  }

  method MergeColumns(bqColumns: seq<BigQueryColumn>, yamlColumns: seq<DbtColumn>, removeDeleted: bool, build: ColumnBuilder)
    returns (merged: seq<DbtColumn>)
    ensures merged == MergedColumns(bqColumns, yamlColumns, removeDeleted, build)
  {
    var bqColumnMap := BuildIndex(bqColumns, BqColumnName);
    var yamlColumnMap := BuildIndex(yamlColumns, ColumnName);
    merged := [];
    for i := 0 to |bqColumns|
      invariant |merged| == i
      invariant forall k :: 0 <= k < i ==> merged[k] == MergeColumn(bqColumns[k], yamlColumnMap, build)
    {
      var mergedColumn;
      if bqColumns[i].name in yamlColumnMap {
        mergedColumn := Refresh(yamlColumnMap[bqColumns[i].name], bqColumns[i]);
      } else {
        mergedColumn := build(bqColumns[i]);
      }
      merged := merged + [mergedColumn];
    }
    assert merged == RemoteColumns(bqColumns, yamlColumnMap, build);
    if !removeDeleted {
      merged := AppendUnmatched(merged, yamlColumns, ColumnName, bqColumnMap.Keys);
    }
  }

  // ---------------------------------------------------------------------------------------
  // merge_table
  // ---------------------------------------------------------------------------------------

  /** The result of merge_table. */
  function MergedTable(b: BigQueryTable, yaml: Option<DbtTable>, removeDeletedColumns: bool,
                       buildColumn: ColumnBuilder, buildTable: TableBuilder): DbtTable
  {
    match yaml
    case None => buildTable(b)
    case Some(t) =>
      DbtTable(t.name, t.identifier, Describe(t.description, b.description),
               Some(MergedColumns(b.columns, ColumnsOrEmpty(t.columns), removeDeletedColumns, buildColumn)),
               t.meta, t.tests)
  }

  method MergeTable(bqTable: BigQueryTable, yamlTable: Option<DbtTable>, removeDeletedColumns: bool,
                    buildColumn: ColumnBuilder, buildTable: TableBuilder)
    returns (table: DbtTable)
    ensures table == MergedTable(bqTable, yamlTable, removeDeletedColumns, buildColumn, buildTable)
  {
    if yamlTable.None? {
      return buildTable(bqTable);
    }
    var t := yamlTable.value;
    var mergedColumns := MergeColumns(bqTable.columns, if t.columns.Some? then t.columns.value else [],
                                      removeDeletedColumns, buildColumn);
    var description := Describe(t.description, bqTable.description);
    table := DbtTable(t.name, t.identifier, description, Some(mergedColumns), t.meta, t.tests);
  }

  // ---------------------------------------------------------------------------------------
  // merge_sources
  // ---------------------------------------------------------------------------------------

  /** The source created when the document has none for this dataset. */
  function NewSource(sourceName: string, projectId: string, datasetId: string): DbtSource
  {
    DbtSource(sourceName, Some(projectId), Some(datasetId), "", [], None)
  }

  /** The existing source, or a new empty one. */
  function BaseSource(yaml: Option<DbtSource>, sourceName: string, projectId: string, datasetId: string): DbtSource
  {
    if yaml.Some? then yaml.value else NewSource(sourceName, projectId, datasetId)
  }

  /** One merged table per BigQuery table, in BigQuery order; a document table matches when its
      `name` equals the BigQuery table id. */
  function RemoteTables(bq: seq<BigQueryTable>, existing: map<string, DbtTable>, removeDeletedColumns: bool,
                        buildColumn: ColumnBuilder, buildTable: TableBuilder): (r: seq<DbtTable>)
    ensures |r| == |bq|
  {
    seq(|bq|, i requires 0 <= i < |bq| =>
      MergedTable(bq[i], Lookup(existing, bq[i].tableId), removeDeletedColumns, buildColumn, buildTable))
  }

  /** The result of merge_sources. */
  function MergedSource(bq: seq<BigQueryTable>, yaml: Option<DbtSource>, sourceName: string,
                        projectId: string, datasetId: string,
                        removeDeletedTables: bool, removeDeletedColumns: bool,
                        buildColumn: ColumnBuilder, buildTable: TableBuilder): DbtSource
  {
    var s := BaseSource(yaml, sourceName, projectId, datasetId);
    var tables := RemoteTables(bq, Index(s.tables, TableName), removeDeletedColumns, buildColumn, buildTable)
                  + (if removeDeletedTables then [] else Unmatched(s.tables, TableName, Index(bq, TableId).Keys));
    DbtSource(s.name, Some(OrDefault(s.database, projectId)), Some(OrDefault(s.schemaName, datasetId)),
              s.description, tables, s.meta)
  }

  method MergeSources(bqTables: seq<BigQueryTable>, yamlSource: Option<DbtSource>, sourceName: string,
                      projectId: string, datasetId: string,
                      removeDeletedTables: bool, removeDeletedColumns: bool,
                      buildColumn: ColumnBuilder, buildTable: TableBuilder)
    returns (source: DbtSource)
    ensures source == MergedSource(bqTables, yamlSource, sourceName, projectId, datasetId,
                                   removeDeletedTables, removeDeletedColumns, buildColumn, buildTable)
  {
    var s := if yamlSource.Some? then yamlSource.value else NewSource(sourceName, projectId, datasetId);
    var bqTableMap := BuildIndex(bqTables, TableId);
    var yamlTableMap := BuildIndex(s.tables, TableName);
    var mergedTables := [];
    for i := 0 to |bqTables|
      invariant |mergedTables| == i
      invariant forall k :: 0 <= k < i ==>
        mergedTables[k] == MergedTable(bqTables[k], Lookup(yamlTableMap, bqTables[k].tableId),
                                       removeDeletedColumns, buildColumn, buildTable)
    {
      var yamlTable := Lookup(yamlTableMap, bqTables[i].tableId);
      var mergedTable := MergeTable(bqTables[i], yamlTable, removeDeletedColumns, buildColumn, buildTable);
      mergedTables := mergedTables + [mergedTable];
    }
    assert mergedTables == RemoteTables(bqTables, yamlTableMap, removeDeletedColumns, buildColumn, buildTable);
    if !removeDeletedTables {
      mergedTables := AppendUnmatched(mergedTables, s.tables, TableName, bqTableMap.Keys);
    }
    source := DbtSource(s.name,
                        Some(OrDefault(s.database, projectId)),
                        Some(OrDefault(s.schemaName, datasetId)),
                        s.description, mergedTables, s.meta);
  }

  // ---------------------------------------------------------------------------------------
  // merge_source_file
  // ---------------------------------------------------------------------------------------

  /** A document source is the target when its name is the source name or its schema is the
      dataset. */
  predicate Matches(s: DbtSource, sourceName: string, datasetId: string)
  {
    s.name == sourceName || s.schemaName == Some(datasetId)
  }

  /** The source the document loop leaves in `yaml_source`: it is reassigned on every match,
      so the last matching source wins. */
  function LastMatch(sources: seq<DbtSource>, sourceName: string, datasetId: string): Option<DbtSource>
  {
    if sources == [] then None
    else if Matches(sources[|sources| - 1], sourceName, datasetId) then Some(sources[|sources| - 1])
    else LastMatch(sources[..|sources| - 1], sourceName, datasetId)
  }

  /** The sources that do not match, in their original order. */
  function OtherSources(sources: seq<DbtSource>, sourceName: string, datasetId: string): seq<DbtSource>
  {
    if sources == [] then []
    else OtherSources(sources[..|sources| - 1], sourceName, datasetId)
         + (if Matches(sources[|sources| - 1], sourceName, datasetId) then [] else [sources[|sources| - 1]])
  }

  /** The existing document, or an empty version-2 one. */
  function BaseFile(yaml: Option<DbtSourceFile>): DbtSourceFile
  {
    if yaml.Some? then yaml.value else DbtSourceFile(2, [])
  }

  /** The result of merge_source_file. */
  function MergedSourceFile(bq: seq<BigQueryTable>, yaml: Option<DbtSourceFile>, sourceName: string,
                            projectId: string, datasetId: string,
                            removeDeletedTables: bool, removeDeletedColumns: bool,
                            buildColumn: ColumnBuilder, buildTable: TableBuilder): DbtSourceFile
  {
    var f := BaseFile(yaml);
    var merged := MergedSource(bq, LastMatch(f.sources, sourceName, datasetId), sourceName, projectId, datasetId,
                               removeDeletedTables, removeDeletedColumns, buildColumn, buildTable);
    DbtSourceFile(f.version, OtherSources(f.sources, sourceName, datasetId) + [merged])
  }

  method MergeSourceFile(bqTables: seq<BigQueryTable>, yamlFile: Option<DbtSourceFile>, sourceName: string,
                         projectId: string, datasetId: string,
                         removeDeletedTables: bool, removeDeletedColumns: bool,
                         buildColumn: ColumnBuilder, buildTable: TableBuilder)
    returns (file: DbtSourceFile)
    ensures file == MergedSourceFile(bqTables, yamlFile, sourceName, projectId, datasetId,
                                     removeDeletedTables, removeDeletedColumns, buildColumn, buildTable)
  {
    var f := if yamlFile.Some? then yamlFile.value else DbtSourceFile(2, []);
    var yamlSource: Option<DbtSource> := None;
    var otherSources: seq<DbtSource> := [];
    for i := 0 to |f.sources|
      invariant yamlSource == LastMatch(f.sources[..i], sourceName, datasetId)
      invariant otherSources == OtherSources(f.sources[..i], sourceName, datasetId)
    {
      assert f.sources[..i + 1][..i] == f.sources[..i];
      var source := f.sources[i];
      if Matches(source, sourceName, datasetId) {
        yamlSource := Some(source);
      } else {
        otherSources := otherSources + [source];
      }
    }
    assert f.sources[..|f.sources|] == f.sources;
    var mergedSource := MergeSources(bqTables, yamlSource, sourceName, projectId, datasetId,
                                     removeDeletedTables, removeDeletedColumns, buildColumn, buildTable);
    file := DbtSourceFile(f.version, otherSources + [mergedSource]);
  }
}
