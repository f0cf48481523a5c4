/** What the reconciliation promises: snapshot order with document-only entries after it,
    descriptions kept unless empty, user fields carried over, pruning of exactly the entries
    absent from the snapshot, other sources passed through, and idempotence. */
module MergeProperties {
  import opened Wrappers
  import opened DbtModel
  import opened MergeStrategy

  /** The keys of a sequence, as a set. */
  function Names<T(==)>(xs: seq<T>, key: T -> string): set<string>
  {
    set x | x in xs :: key(x)
  }

  /** No two entries of `xs` share a key. */
  predicate UniqueKeys<T>(xs: seq<T>, key: T -> string)
  {
    forall i, j :: 0 <= i < j < |xs| ==> key(xs[i]) != key(xs[j])
  }

  // ---------------------------------------------------------------------------------------
  // Indexes and filters
  // ---------------------------------------------------------------------------------------

  /** The keys of a dictionary comprehension are the keys of its entries. */
  lemma IndexKeySet<T>(xs: seq<T>, key: T -> string)
    ensures Index(xs, key).Keys == Names(xs, key)
  {
    forall k | true ensures k in Index(xs, key) <==> k in Names(xs, key) {
      IndexKeys(xs, key, k);
    }
  }

  /** Every value of a dictionary comprehension is stored under its own key. */
  lemma {:induction false} IndexValueKey<T>(xs: seq<T>, key: T -> string, k: string)
    requires k in Index(xs, key)
    ensures key(Index(xs, key)[k]) == k && Index(xs, key)[k] in xs
  {
    var n := |xs| - 1;
    if key(xs[n]) != k {
      IndexValueKey(xs[..n], key, k);
    }
  }

  /** The filter keeps exactly the entries whose key is absent, with their values unchanged. */
  lemma {:induction false} UnmatchedMembers<T>(xs: seq<T>, key: T -> string, present: set<string>, x: T)
    ensures x in Unmatched(xs, key, present) <==> x in xs && key(x) !in present
  {
    if xs != [] {
      var init := xs[..|xs| - 1];
      UnmatchedMembers(init, key, present, x);
      assert xs == init + [xs[|xs| - 1]];
    }
  }

  /** The filter preserves relative order: filtering a concatenation concatenates the filtered parts. */
  lemma {:induction false} UnmatchedAppend<T>(a: seq<T>, b: seq<T>, key: T -> string, present: set<string>)
    ensures Unmatched(a + b, key, present) == Unmatched(a, key, present) + Unmatched(b, key, present)
  {
    if b != [] {
      var init := b[..|b| - 1];
      assert (a + b)[..|a + b| - 1] == a + init;
      UnmatchedAppend(a, init, key, present);
    } else {
      assert a + b == a;
    }
  }

  /** A sequence none of whose keys is present passes the filter unchanged. */
  lemma {:induction false} UnmatchedKeepsAll<T>(xs: seq<T>, key: T -> string, present: set<string>)
    requires forall i :: 0 <= i < |xs| ==> key(xs[i]) !in present
    ensures Unmatched(xs, key, present) == xs
  {
    if xs != [] {
      UnmatchedKeepsAll(xs[..|xs| - 1], key, present);
    }
  }

  /** A sequence all of whose keys are present is filtered out completely. */
  lemma {:induction false} UnmatchedDropsAll<T>(xs: seq<T>, key: T -> string, present: set<string>)
    requires forall i :: 0 <= i < |xs| ==> key(xs[i]) in present
    ensures Unmatched(xs, key, present) == []
  {
    if xs != [] {
      UnmatchedDropsAll(xs[..|xs| - 1], key, present);
    }
  }

  /** Re-indexing a merge result: when the snapshot-driven part `p` has distinct keys, all of them
      present, and the appended part `o` has none of them, the index finds `p[i]` under its key
      and the filter returns exactly `o`. */
  lemma RemergeParts<T>(p: seq<T>, o: seq<T>, key: T -> string, present: set<string>)
    requires UniqueKeys(p, key)
    requires forall i :: 0 <= i < |p| ==> key(p[i]) in present
    requires forall i :: 0 <= i < |o| ==> key(o[i]) !in present
    ensures forall i :: 0 <= i < |p| ==> key(p[i]) in Index(p + o, key) && Index(p + o, key)[key(p[i])] == p[i]
    ensures Unmatched(p + o, key, present) == o
  {
    forall i | 0 <= i < |p|
      ensures key(p[i]) in Index(p + o, key) && Index(p + o, key)[key(p[i])] == p[i]
    {
      var xs := p + o;
      forall j | i < j < |xs| ensures key(xs[j]) != key(xs[i]) {
        if j >= |p| {
          assert xs[j] == o[j - |p|];
        }
      }
      IndexLastWins(xs, key, i);
    }
    UnmatchedAppend(p, o, key, present);
    UnmatchedDropsAll(p, key, present);
    UnmatchedKeepsAll(o, key, present);
  }

  // ---------------------------------------------------------------------------------------
  // merge_columns
  // ---------------------------------------------------------------------------------------

  /** Snapshot-driven prefix: one entry per BigQuery column, in BigQuery order. A column that the
      document also has (the last document column of that name) takes name and type from BigQuery,
      keeps its description unless empty and keeps its meta and tests; any other column is built
      from BigQuery alone. */
  lemma MergedColumnsPrefix(bq: seq<BigQueryColumn>, yaml: seq<DbtColumn>, removeDeleted: bool, build: ColumnBuilder)
    ensures |MergedColumns(bq, yaml, removeDeleted, build)| >= |bq|
    ensures forall i, j {:trigger bq[i], yaml[j]} ::
      0 <= i < |bq| && LastWithKey(yaml, ColumnName, j) && yaml[j].name == bq[i].name ==>
        var c := MergedColumns(bq, yaml, removeDeleted, build)[i];
        && c.name == bq[i].name
        && c.dataType == Some(bq[i].fieldType)
        && c.description == Describe(yaml[j].description, bq[i].description)
        && c.meta == yaml[j].meta
        && c.tests == yaml[j].tests
    ensures forall i :: 0 <= i < |bq| && bq[i].name !in Names(yaml, ColumnName) ==>
      MergedColumns(bq, yaml, removeDeleted, build)[i] == build(bq[i])
  {
    var index := Index(yaml, ColumnName);
    forall i, j | 0 <= i < |bq| && LastWithKey(yaml, ColumnName, j) && yaml[j].name == bq[i].name
      ensures MergeColumn(bq[i], index, build) == Refresh(yaml[j], bq[i])
    {
      IndexLastWins(yaml, ColumnName, j);
    }
    IndexKeySet(yaml, ColumnName);
  }

  /** Pruning: with `removeDeleted` nothing follows the snapshot-driven prefix; without it the
      document columns absent from the snapshot follow, unchanged and in their original order. */
  lemma MergedColumnsSuffix(bq: seq<BigQueryColumn>, yaml: seq<DbtColumn>, removeDeleted: bool, build: ColumnBuilder)
    ensures removeDeleted ==> |MergedColumns(bq, yaml, removeDeleted, build)| == |bq|
    ensures !removeDeleted ==>
      MergedColumns(bq, yaml, removeDeleted, build)[|bq|..] == Unmatched(yaml, ColumnName, Names(bq, BqColumnName))
    ensures !removeDeleted ==> forall c ::
      c in MergedColumns(bq, yaml, removeDeleted, build)[|bq|..] <==> c in yaml && c.name !in Names(bq, BqColumnName)
  {
    IndexKeySet(bq, BqColumnName);
    var r := MergedColumns(bq, yaml, removeDeleted, build);
    var remote := RemoteColumns(bq, Index(yaml, ColumnName), build);
    if !removeDeleted {
      var orphans := Unmatched(yaml, ColumnName, Names(bq, BqColumnName));
      assert r == remote + orphans;
      assert r[|bq|..] == orphans;
      forall c | true ensures c in orphans <==> c in yaml && c.name !in Names(bq, BqColumnName) {
        UnmatchedMembers(yaml, ColumnName, Names(bq, BqColumnName), c);
      }
    }
  }

  /** A column the builder produces is left as it is when merged again with its own BigQuery
      column: same name and type, a description the fallback rule would not change. */
  ghost predicate FreshColumnIsStable(build: ColumnBuilder)
  {
    forall b {:trigger build(b)} :: Refresh(build(b), b) == build(b)
  }

  /** The description rule is idempotent. */
  lemma DescribeIdempotent(doc: string, remote: Option<string>)
    ensures Describe(Describe(doc, remote), remote) == Describe(doc, remote)
  {
  }

  /** Every snapshot-driven column carries its BigQuery column's name and is stable under a second merge. */
  lemma RemoteColumnsStable(bq: seq<BigQueryColumn>, existing: map<string, DbtColumn>, build: ColumnBuilder, i: int)
    requires FreshColumnIsStable(build)
    requires 0 <= i < |bq|
    ensures RemoteColumns(bq, existing, build)[i].name == bq[i].name
    ensures Refresh(RemoteColumns(bq, existing, build)[i], bq[i]) == RemoteColumns(bq, existing, build)[i]
  {
    var b := bq[i];
    if b.name in existing {
      DescribeIdempotent(existing[b.name].description, b.description);
    } else {
      assert Refresh(build(b), b) == build(b);
    }
  }

  /** Re-merging the merged column list `p + o` (snapshot-driven columns, then kept document
      columns) against the same snapshot gives back `p` and keeps `o`. */
  lemma RemergeColumns(bq: seq<BigQueryColumn>, yaml: seq<DbtColumn>, o: seq<DbtColumn>, build: ColumnBuilder)
    requires UniqueKeys(bq, BqColumnName)
    requires FreshColumnIsStable(build)
    requires forall i :: 0 <= i < |o| ==> ColumnName(o[i]) !in Names(bq, BqColumnName)
    ensures var p := RemoteColumns(bq, Index(yaml, ColumnName), build);
            && RemoteColumns(bq, Index(p + o, ColumnName), build) == p
            && Unmatched(p + o, ColumnName, Names(bq, BqColumnName)) == o
  {
    var p := RemoteColumns(bq, Index(yaml, ColumnName), build);
    forall i | 0 <= i < |p| ensures p[i].name == bq[i].name && Refresh(p[i], bq[i]) == p[i] {
      RemoteColumnsStable(bq, Index(yaml, ColumnName), build, i);
    }
    assert UniqueKeys(p, ColumnName) by {
      forall i, j | 0 <= i < j < |p| ensures ColumnName(p[i]) != ColumnName(p[j]) {
        assert BqColumnName(bq[i]) != BqColumnName(bq[j]);
      }
    }
    forall i | 0 <= i < |p| ensures ColumnName(p[i]) in Names(bq, BqColumnName) {
      assert BqColumnName(bq[i]) == ColumnName(p[i]);
    }
    RemergeParts(p, o, ColumnName, Names(bq, BqColumnName));
    var again := RemoteColumns(bq, Index(p + o, ColumnName), build);
    forall i | 0 <= i < |bq| ensures again[i] == p[i] {
      assert ColumnName(p[i]) == bq[i].name;
    }
  }

  /** Idempotence: merging the merged columns again with the same snapshot changes nothing,
      provided BigQuery column names are distinct and a freshly built column is stable. */
  lemma MergedColumnsIdempotent(bq: seq<BigQueryColumn>, yaml: seq<DbtColumn>, removeDeleted: bool, build: ColumnBuilder)
    requires UniqueKeys(bq, BqColumnName)
    requires FreshColumnIsStable(build)
    ensures MergedColumns(bq, MergedColumns(bq, yaml, removeDeleted, build), removeDeleted, build)
            == MergedColumns(bq, yaml, removeDeleted, build)
  {
    IndexKeySet(bq, BqColumnName);
    var present := Names(bq, BqColumnName);
    var o := if removeDeleted then [] else Unmatched(yaml, ColumnName, present);
    forall i | 0 <= i < |o| ensures ColumnName(o[i]) !in present {
      UnmatchedMembers(yaml, ColumnName, present, o[i]);
    }
    RemergeColumns(bq, yaml, o, build);
  }

  // ---------------------------------------------------------------------------------------
  // merge_table
  // ---------------------------------------------------------------------------------------

  /** A table with no document counterpart is the builder's; otherwise the document's name,
      identifier, meta and tests are kept, its description unless empty, and its columns are
      merged, a missing column list counting as empty. */
  lemma MergedTableFields(b: BigQueryTable, yaml: Option<DbtTable>, removeDeletedColumns: bool,
                          buildColumn: ColumnBuilder, buildTable: TableBuilder)
    ensures yaml.None? ==> MergedTable(b, yaml, removeDeletedColumns, buildColumn, buildTable) == buildTable(b)
    ensures yaml.Some? ==>
      var t := yaml.value;
      var r := MergedTable(b, yaml, removeDeletedColumns, buildColumn, buildTable);
      && r.name == t.name && r.identifier == t.identifier
      && r.meta == t.meta && r.tests == t.tests
      && (t.description != "" ==> r.description == t.description)
      && (t.description == "" && HasText(b.description) ==> r.description == b.description.value)
      && (t.description == "" && !HasText(b.description) ==> r.description == "")
      && r.columns == Some(MergedColumns(b.columns, ColumnsOrEmpty(t.columns), removeDeletedColumns, buildColumn))
    ensures yaml.Some? && yaml.value.columns.None? ==>
      MergedTable(b, yaml, removeDeletedColumns, buildColumn, buildTable)
      == MergedTable(b, Some(yaml.value.(columns := Some([]))), removeDeletedColumns, buildColumn, buildTable)
  {
  }

  /** A table the builder produces is named after the BigQuery table, keeps its description under
      the fallback rule, and holds one freshly built column per BigQuery column. */
  ghost predicate FreshTableIsStable(buildTable: TableBuilder, buildColumn: ColumnBuilder)
  {
    forall b {:trigger buildTable(b)} ::
      && buildTable(b).name == b.tableId
      && Describe(buildTable(b).description, b.description) == buildTable(b).description
      && buildTable(b).columns == Some(RemoteColumns(b.columns, map[], buildColumn))
  }

  /** Idempotence of merge_table for one BigQuery table. */
  lemma MergedTableIdempotent(b: BigQueryTable, yaml: Option<DbtTable>, removeDeletedColumns: bool,
                              buildColumn: ColumnBuilder, buildTable: TableBuilder)
    requires UniqueKeys(b.columns, BqColumnName)
    requires FreshColumnIsStable(buildColumn) && FreshTableIsStable(buildTable, buildColumn)
    ensures var t := MergedTable(b, yaml, removeDeletedColumns, buildColumn, buildTable);
            MergedTable(b, Some(t), removeDeletedColumns, buildColumn, buildTable) == t
  {
    var t := MergedTable(b, yaml, removeDeletedColumns, buildColumn, buildTable);
    var cols := if yaml.Some? then ColumnsOrEmpty(yaml.value.columns) else [];
    if yaml.None? {
      assert t == buildTable(b);
      assert MergedColumns(b.columns, [], removeDeletedColumns, buildColumn)
             == RemoteColumns(b.columns, map[], buildColumn);
    } else {
      DescribeIdempotent(yaml.value.description, b.description);
    }
    assert t.columns == Some(MergedColumns(b.columns, cols, removeDeletedColumns, buildColumn));
    MergedColumnsIdempotent(b.columns, cols, removeDeletedColumns, buildColumn);
  }

  // ---------------------------------------------------------------------------------------
  // merge_sources
  // ---------------------------------------------------------------------------------------

  /** Table order and matching: one entry per BigQuery table, in BigQuery order. The document
      table merged into entry `i` is the last one whose NAME equals the table id (its identifier
      plays no part); a table id no document table is named after gets the builder's table. */
  lemma MergedSourceRemoteTables(bq: seq<BigQueryTable>, yaml: Option<DbtSource>, sourceName: string,
                                 projectId: string, datasetId: string,
                                 removeDeletedTables: bool, removeDeletedColumns: bool,
                                 buildColumn: ColumnBuilder, buildTable: TableBuilder)
    ensures var r := MergedSource(bq, yaml, sourceName, projectId, datasetId,
                                  removeDeletedTables, removeDeletedColumns, buildColumn, buildTable);
            |r.tables| >= |bq|
    ensures var r := MergedSource(bq, yaml, sourceName, projectId, datasetId,
                                  removeDeletedTables, removeDeletedColumns, buildColumn, buildTable);
            var doc := BaseSource(yaml, sourceName, projectId, datasetId).tables;
            forall i, j {:trigger bq[i], doc[j]} ::
              0 <= i < |bq| && LastWithKey(doc, TableName, j) && doc[j].name == bq[i].tableId ==>
                r.tables[i] == MergedTable(bq[i], Some(doc[j]), removeDeletedColumns, buildColumn, buildTable)
    ensures var r := MergedSource(bq, yaml, sourceName, projectId, datasetId,
                                  removeDeletedTables, removeDeletedColumns, buildColumn, buildTable);
            var doc := BaseSource(yaml, sourceName, projectId, datasetId).tables;
            forall i :: 0 <= i < |bq| && bq[i].tableId !in Names(doc, TableName) ==>
              r.tables[i] == buildTable(bq[i])
  {
    var doc := BaseSource(yaml, sourceName, projectId, datasetId).tables;
    forall i, j | 0 <= i < |bq| && LastWithKey(doc, TableName, j) && doc[j].name == bq[i].tableId
      ensures Lookup(Index(doc, TableName), bq[i].tableId) == Some(doc[j])
    {
      IndexLastWins(doc, TableName, j);
    }
    IndexKeySet(doc, TableName);
  }

  /** Table pruning: with `removeDeletedTables` only the snapshot-driven tables remain; without it
      the document tables whose name is no BigQuery table id follow, unchanged and in order. */
  lemma MergedSourcePrunedTables(bq: seq<BigQueryTable>, yaml: Option<DbtSource>, sourceName: string,
                                 projectId: string, datasetId: string,
                                 removeDeletedTables: bool, removeDeletedColumns: bool,
                                 buildColumn: ColumnBuilder, buildTable: TableBuilder)
    ensures var r := MergedSource(bq, yaml, sourceName, projectId, datasetId,
                                  removeDeletedTables, removeDeletedColumns, buildColumn, buildTable);
            removeDeletedTables ==> |r.tables| == |bq|
    ensures var r := MergedSource(bq, yaml, sourceName, projectId, datasetId,
                                  removeDeletedTables, removeDeletedColumns, buildColumn, buildTable);
            var doc := BaseSource(yaml, sourceName, projectId, datasetId).tables;
            !removeDeletedTables ==> r.tables[|bq|..] == Unmatched(doc, TableName, Names(bq, TableId))
    ensures var r := MergedSource(bq, yaml, sourceName, projectId, datasetId,
                                  removeDeletedTables, removeDeletedColumns, buildColumn, buildTable);
            var doc := BaseSource(yaml, sourceName, projectId, datasetId).tables;
            !removeDeletedTables ==> forall t ::
              t in r.tables[|bq|..] <==> t in doc && t.name !in Names(bq, TableId)
  {
    IndexKeySet(bq, TableId);
    var doc := BaseSource(yaml, sourceName, projectId, datasetId).tables;
    var r := MergedSource(bq, yaml, sourceName, projectId, datasetId,
                          removeDeletedTables, removeDeletedColumns, buildColumn, buildTable);
    var remote := RemoteTables(bq, Index(doc, TableName), removeDeletedColumns, buildColumn, buildTable);
    if !removeDeletedTables {
      var orphans := Unmatched(doc, TableName, Names(bq, TableId));
      assert r.tables == remote + orphans;
      assert r.tables[|bq|..] == orphans;
      forall t | true ensures t in orphans <==> t in doc && t.name !in Names(bq, TableId) {
        UnmatchedMembers(doc, TableName, Names(bq, TableId), t);
      }
    }
  }

  /** Source-level fields: name, description and meta are the existing source's (or the source
      name, "" and none for a new source); database and schema are the existing ones unless
      empty, else the project and dataset. */
  lemma MergedSourceFields(bq: seq<BigQueryTable>, yaml: Option<DbtSource>, sourceName: string,
                           projectId: string, datasetId: string,
                           removeDeletedTables: bool, removeDeletedColumns: bool,
                           buildColumn: ColumnBuilder, buildTable: TableBuilder)
    ensures var r := MergedSource(bq, yaml, sourceName, projectId, datasetId,
                                  removeDeletedTables, removeDeletedColumns, buildColumn, buildTable);
            yaml.Some? ==> r.name == yaml.value.name && r.description == yaml.value.description && r.meta == yaml.value.meta
    ensures var r := MergedSource(bq, yaml, sourceName, projectId, datasetId,
                                  removeDeletedTables, removeDeletedColumns, buildColumn, buildTable);
            yaml.None? ==> r.name == sourceName && r.description == "" && r.meta.None?
                           && r.database == Some(projectId) && r.schemaName == Some(datasetId)
    ensures var r := MergedSource(bq, yaml, sourceName, projectId, datasetId,
                                  removeDeletedTables, removeDeletedColumns, buildColumn, buildTable);
            yaml.Some? ==>
              && r.database == Some(if HasText(yaml.value.database) then yaml.value.database.value else projectId)
              && r.schemaName == Some(if HasText(yaml.value.schemaName) then yaml.value.schemaName.value else datasetId)
  {
  }

  /** Each snapshot-driven table is named after its BigQuery table and is left unchanged by
      merging it again. */
  lemma RemoteTablesStable(bq: seq<BigQueryTable>, doc: seq<DbtTable>, removeDeletedColumns: bool,
                           buildColumn: ColumnBuilder, buildTable: TableBuilder, i: int)
    requires 0 <= i < |bq| && UniqueKeys(bq[i].columns, BqColumnName)
    requires FreshColumnIsStable(buildColumn) && FreshTableIsStable(buildTable, buildColumn)
    ensures var p := RemoteTables(bq, Index(doc, TableName), removeDeletedColumns, buildColumn, buildTable);
            && p[i].name == bq[i].tableId
            && MergedTable(bq[i], Some(p[i]), removeDeletedColumns, buildColumn, buildTable) == p[i]
  {
    var docIndex := Index(doc, TableName);
    if bq[i].tableId in docIndex {
      IndexValueKey(doc, TableName, bq[i].tableId);
    }
    MergedTableIdempotent(bq[i], Lookup(docIndex, bq[i].tableId), removeDeletedColumns, buildColumn, buildTable);
  }

  /** Re-merging the merged table list `p + o` (snapshot-driven tables, then kept document
      tables) against the same snapshot gives back `p` and keeps `o`. */
  lemma RemergeTables(bq: seq<BigQueryTable>, doc: seq<DbtTable>, o: seq<DbtTable>, removeDeletedColumns: bool,
                      buildColumn: ColumnBuilder, buildTable: TableBuilder)
    requires UniqueKeys(bq, TableId)
    requires forall i :: 0 <= i < |bq| ==> UniqueKeys(bq[i].columns, BqColumnName)
    requires FreshColumnIsStable(buildColumn) && FreshTableIsStable(buildTable, buildColumn)
    requires forall i :: 0 <= i < |o| ==> TableName(o[i]) !in Names(bq, TableId)
    ensures var p := RemoteTables(bq, Index(doc, TableName), removeDeletedColumns, buildColumn, buildTable);
            && RemoteTables(bq, Index(p + o, TableName), removeDeletedColumns, buildColumn, buildTable) == p
            && Unmatched(p + o, TableName, Names(bq, TableId)) == o
  {
    var p := RemoteTables(bq, Index(doc, TableName), removeDeletedColumns, buildColumn, buildTable);
    forall i | 0 <= i < |p|
      ensures p[i].name == bq[i].tableId
      ensures MergedTable(bq[i], Some(p[i]), removeDeletedColumns, buildColumn, buildTable) == p[i]
    {
      RemoteTablesStable(bq, doc, removeDeletedColumns, buildColumn, buildTable, i);
    }
    assert UniqueKeys(p, TableName) by {
      forall i, j | 0 <= i < j < |p| ensures TableName(p[i]) != TableName(p[j]) {
        assert TableId(bq[i]) != TableId(bq[j]);
      }
    }
    forall i | 0 <= i < |p| ensures TableName(p[i]) in Names(bq, TableId) {
      assert TableId(bq[i]) == TableName(p[i]);
    }
    RemergeParts(p, o, TableName, Names(bq, TableId));
    var again := RemoteTables(bq, Index(p + o, TableName), removeDeletedColumns, buildColumn, buildTable);
    forall i | 0 <= i < |bq| ensures again[i] == p[i] {
      assert TableName(p[i]) == bq[i].tableId;
    }
  }

  /** Idempotence of merge_sources, given distinct BigQuery table ids, distinct column names in
      every BigQuery table and builders whose output is stable. */
  lemma MergedSourceIdempotent(bq: seq<BigQueryTable>, yaml: Option<DbtSource>, sourceName: string,
                               projectId: string, datasetId: string,
                               removeDeletedTables: bool, removeDeletedColumns: bool,
                               buildColumn: ColumnBuilder, buildTable: TableBuilder)
    requires UniqueKeys(bq, TableId)
    requires forall i :: 0 <= i < |bq| ==> UniqueKeys(bq[i].columns, BqColumnName)
    requires FreshColumnIsStable(buildColumn) && FreshTableIsStable(buildTable, buildColumn)
    ensures var s := MergedSource(bq, yaml, sourceName, projectId, datasetId,
                                  removeDeletedTables, removeDeletedColumns, buildColumn, buildTable);
            MergedSource(bq, Some(s), sourceName, projectId, datasetId,
                         removeDeletedTables, removeDeletedColumns, buildColumn, buildTable) == s
  {
    var base := BaseSource(yaml, sourceName, projectId, datasetId);
    IndexKeySet(bq, TableId);
    var present := Names(bq, TableId);
    var o := if removeDeletedTables then [] else Unmatched(base.tables, TableName, present);
    forall i | 0 <= i < |o| ensures TableName(o[i]) !in present {
      UnmatchedMembers(base.tables, TableName, present, o[i]);
    }
    RemergeTables(bq, base.tables, o, removeDeletedColumns, buildColumn, buildTable);
  }

  // ---------------------------------------------------------------------------------------
  // merge_source_file
  // ---------------------------------------------------------------------------------------

  /** Several matching sources: the last one is the one merged. */
  lemma {:induction false} LastMatchWins(sources: seq<DbtSource>, sourceName: string, datasetId: string)
    ensures LastMatch(sources, sourceName, datasetId).None? <==>
            forall i :: 0 <= i < |sources| ==> !Matches(sources[i], sourceName, datasetId)
    ensures LastMatch(sources, sourceName, datasetId).Some? ==>
            exists i :: 0 <= i < |sources| && sources[i] == LastMatch(sources, sourceName, datasetId).value
                        && Matches(sources[i], sourceName, datasetId)
                        && forall j :: i < j < |sources| ==> !Matches(sources[j], sourceName, datasetId)
  {
    if sources != [] {
      var n := |sources| - 1;
      LastMatchWins(sources[..n], sourceName, datasetId);
      if !Matches(sources[n], sourceName, datasetId) {
        if LastMatch(sources[..n], sourceName, datasetId).Some? {
          var i :| 0 <= i < n && sources[..n][i] == LastMatch(sources[..n], sourceName, datasetId).value
                   && Matches(sources[..n][i], sourceName, datasetId)
                   && forall j :: i < j < n ==> !Matches(sources[..n][j], sourceName, datasetId);
          assert sources[i] == sources[..n][i];
          forall j | i < j < |sources| ensures !Matches(sources[j], sourceName, datasetId) {
            if j < n {
              assert sources[j] == sources[..n][j];
            }
          }
        } else {
          forall i | 0 <= i < |sources| ensures !Matches(sources[i], sourceName, datasetId) {
            if i < n {
              assert sources[i] == sources[..n][i];
            }
          }
        }
      }
    }
  }

  /** The passed-through sources are exactly the non-matching ones, unchanged; an earlier matching
      source is therefore dropped. */
  lemma {:induction false} OtherSourcesMembers(sources: seq<DbtSource>, sourceName: string, datasetId: string, s: DbtSource)
    ensures s in OtherSources(sources, sourceName, datasetId) <==> s in sources && !Matches(s, sourceName, datasetId)
  {
    if sources != [] {
      var n := |sources| - 1;
      OtherSourcesMembers(sources[..n], sourceName, datasetId, s);
      assert sources == sources[..n] + [sources[n]];
    }
  }

  /** Sources none of which matches are passed through as they are. */
  lemma {:induction false} OtherSourcesKeepsAll(sources: seq<DbtSource>, sourceName: string, datasetId: string)
    requires forall i :: 0 <= i < |sources| ==> !Matches(sources[i], sourceName, datasetId)
    ensures OtherSources(sources, sourceName, datasetId) == sources
  {
    if sources != [] {
      OtherSourcesKeepsAll(sources[..|sources| - 1], sourceName, datasetId);
    }
  }

  /** Document-level result: the version is kept (2 for a new document), the non-matching sources
      keep their order and content, and exactly one merged source follows them. */
  lemma MergedSourceFileShape(bq: seq<BigQueryTable>, yaml: Option<DbtSourceFile>, sourceName: string,
                              projectId: string, datasetId: string,
                              removeDeletedTables: bool, removeDeletedColumns: bool,
                              buildColumn: ColumnBuilder, buildTable: TableBuilder)
    ensures var r := MergedSourceFile(bq, yaml, sourceName, projectId, datasetId,
                                      removeDeletedTables, removeDeletedColumns, buildColumn, buildTable);
            r.version == (if yaml.Some? then yaml.value.version else 2)
    ensures var r := MergedSourceFile(bq, yaml, sourceName, projectId, datasetId,
                                      removeDeletedTables, removeDeletedColumns, buildColumn, buildTable);
            var doc := BaseFile(yaml).sources;
            && |r.sources| == |OtherSources(doc, sourceName, datasetId)| + 1
            && r.sources[..|r.sources| - 1] == OtherSources(doc, sourceName, datasetId)
            && r.sources[|r.sources| - 1] == MergedSource(bq, LastMatch(doc, sourceName, datasetId), sourceName,
                                                          projectId, datasetId, removeDeletedTables,
                                                          removeDeletedColumns, buildColumn, buildTable)
    ensures var r := MergedSourceFile(bq, yaml, sourceName, projectId, datasetId,
                                      removeDeletedTables, removeDeletedColumns, buildColumn, buildTable);
            var doc := BaseFile(yaml).sources;
            forall s :: s in r.sources[..|r.sources| - 1] <==> s in doc && !Matches(s, sourceName, datasetId)
  {
    var doc := BaseFile(yaml).sources;
    forall s | true ensures s in OtherSources(doc, sourceName, datasetId) <==> s in doc && !Matches(s, sourceName, datasetId) {
      OtherSourcesMembers(doc, sourceName, datasetId, s);
    }
  }

  /** The merged source is itself a match for the target name and dataset. */
  lemma MergedSourceMatches(bq: seq<BigQueryTable>, yaml: Option<DbtSource>, sourceName: string,
                            projectId: string, datasetId: string,
                            removeDeletedTables: bool, removeDeletedColumns: bool,
                            buildColumn: ColumnBuilder, buildTable: TableBuilder)
    requires yaml.Some? ==> Matches(yaml.value, sourceName, datasetId)
    ensures Matches(MergedSource(bq, yaml, sourceName, projectId, datasetId,
                                 removeDeletedTables, removeDeletedColumns, buildColumn, buildTable),
                    sourceName, datasetId)
  {
  }

  /** Idempotence of merge_source_file: reconciling a document produced by a reconciliation
      against the same snapshot yields the same document. */
  lemma MergedSourceFileIdempotent(bq: seq<BigQueryTable>, yaml: Option<DbtSourceFile>, sourceName: string,
                                   projectId: string, datasetId: string,
                                   removeDeletedTables: bool, removeDeletedColumns: bool,
                                   buildColumn: ColumnBuilder, buildTable: TableBuilder)
    requires UniqueKeys(bq, TableId)
    requires forall i :: 0 <= i < |bq| ==> UniqueKeys(bq[i].columns, BqColumnName)
    requires FreshColumnIsStable(buildColumn) && FreshTableIsStable(buildTable, buildColumn)
    ensures var f := MergedSourceFile(bq, yaml, sourceName, projectId, datasetId,
                                      removeDeletedTables, removeDeletedColumns, buildColumn, buildTable);
            MergedSourceFile(bq, Some(f), sourceName, projectId, datasetId,
                             removeDeletedTables, removeDeletedColumns, buildColumn, buildTable) == f
  {
    var doc := BaseFile(yaml).sources;
    var target := LastMatch(doc, sourceName, datasetId);
    var others := OtherSources(doc, sourceName, datasetId);
    var m := MergedSource(bq, target, sourceName, projectId, datasetId,
                          removeDeletedTables, removeDeletedColumns, buildColumn, buildTable);
    var f := MergedSourceFile(bq, yaml, sourceName, projectId, datasetId,
                              removeDeletedTables, removeDeletedColumns, buildColumn, buildTable);
    assert f.sources == others + [m];
    LastMatchWins(doc, sourceName, datasetId);
    MergedSourceMatches(bq, target, sourceName, projectId, datasetId,
                        removeDeletedTables, removeDeletedColumns, buildColumn, buildTable);
    forall i | 0 <= i < |others| ensures !Matches(others[i], sourceName, datasetId) {
      OtherSourcesMembers(doc, sourceName, datasetId, others[i]);
    }
    OtherSourcesKeepsAll(others, sourceName, datasetId);
    assert (others + [m])[..|others|] == others;
    assert LastMatch(f.sources, sourceName, datasetId) == Some(m);
    assert OtherSources(f.sources, sourceName, datasetId) == others;
    MergedSourceIdempotent(bq, target, sourceName, projectId, datasetId,
                           removeDeletedTables, removeDeletedColumns, buildColumn, buildTable);
  }
}
