/** The pure half of the YAML handler: the document model is written to an ordered key/value
    tree, with fixed key order and empty optional fields left out, and read back from one, with
    defaults for missing keys. Reading and writing files is not part of this model. */
module YamlHandler {
  import opened Wrappers
  import opened YamlTree
  import opened DbtModel

  // ---------------------------------------------------------------------------------------
  // Serialisation: document model -> tree
  // ---------------------------------------------------------------------------------------

  /** `if value: data[key] = value` for an optional string. */
  function TextEntry(key: string, o: Option<string>): seq<(string, Node)>
  {
    if HasText(o) then [(key, Str(o.value))] else []
  }

  /** `if value: data[key] = value` for a string. */
  function StringEntry(key: string, s: string): seq<(string, Node)>
  {
    if s != "" then [(key, Str(s))] else []
  }

  /** `if value: data[key] = value` for an optional YAML value (meta, tests). */
  function ValueEntry(key: string, o: Option<Node>): seq<(string, Node)>
  {
    if HasValue(o) then [(key, o.value)] else []
  }

  function ColumnNode(c: DbtColumn): Node
  {
    Mapping([("name", Str(c.name))]
            + (TextEntry("data_type", c.dataType)
            + (StringEntry("description", c.description)
            + (ValueEntry("meta", c.meta)
            + ValueEntry("tests", c.tests)))))
  }

  function ColumnNodes(cs: seq<DbtColumn>): (ns: seq<Node>)
    ensures |ns| == |cs|
  {
    seq(|cs|, i requires 0 <= i < |cs| => ColumnNode(cs[i]))
  }

  /** The entries of a table mapping before its optional `columns` entry. */
  function TableHead(t: DbtTable): seq<(string, Node)>
  {
    [("name", Str(t.name))]
    + (TextEntry("identifier", t.identifier)
    + (StringEntry("description", t.description)
    + (ValueEntry("meta", t.meta)
    + ValueEntry("tests", t.tests))))
  }

  /** `columns` is written only when the table has at least one column. */
  function TableNode(t: DbtTable): Node
  {
    Mapping(TableHead(t)
            + if t.columns.Some? && t.columns.value != []
              then [("columns", Sequence(ColumnNodes(t.columns.value)))]
              else [])
  }

  function TableNodes(ts: seq<DbtTable>): (ns: seq<Node>)
    ensures |ns| == |ts|
  {
    seq(|ts|, i requires 0 <= i < |ts| => TableNode(ts[i]))
  }

  /** The entries of a source mapping before its `tables` entry. */
  function SourceHead(s: DbtSource): seq<(string, Node)>
  {
    [("name", Str(s.name))]
    + (TextEntry("database", s.database)
    + (TextEntry("schema", s.schemaName)
    + (StringEntry("description", s.description)
    + ValueEntry("meta", s.meta))))
  }

  /** `tables` is always written, even when empty. */
  function SourceNode(s: DbtSource): Node
  {
    Mapping(SourceHead(s) + [("tables", Sequence(TableNodes(s.tables)))])
  }

  function SourceNodes(ss: seq<DbtSource>): (ns: seq<Node>)
    ensures |ns| == |ss|
  {
    seq(|ss|, i requires 0 <= i < |ss| => SourceNode(ss[i]))
  }

  function FileNode(f: DbtSourceFile): Node
  {
    Mapping([("version", Int(f.version)), ("sources", Sequence(SourceNodes(f.sources)))])
  }

  /** The innermost loop of _serialize_source_file: one mapping per column, in order. */
  method SerializeColumns(columns: seq<DbtColumn>) returns (nodes: seq<Node>)
    ensures nodes == ColumnNodes(columns)
  {
    nodes := [];
    for c := 0 to |columns|
      invariant |nodes| == c
      invariant forall k :: 0 <= k < c ==> nodes[k] == ColumnNode(columns[k])
    {
      nodes := nodes + [ColumnNode(columns[c])];
    }
  }

  /** The body of the table loop: the table's own keys, then `columns` when there are any. */
  method SerializeTable(table: DbtTable) returns (node: Node)
    ensures node == TableNode(table)
  {
    var tableData := TableHead(table);
    if table.columns.Some? && table.columns.value != [] {
      var columns := SerializeColumns(table.columns.value);
      tableData := tableData + [("columns", Sequence(columns))];
    }
    node := Mapping(tableData);
  }

  /** The body of the source loop: the source's own keys, then every table in order. */
  method SerializeSource(source: DbtSource) returns (node: Node)
    ensures node == SourceNode(source)
  {
    var tables: seq<Node> := [];
    for j := 0 to |source.tables|
      invariant |tables| == j
      invariant forall k :: 0 <= k < j ==> tables[k] == TableNode(source.tables[k])
    {
      var table := SerializeTable(source.tables[j]);
      tables := tables + [table];
    }
    assert tables == TableNodes(source.tables);
    node := Mapping(SourceHead(source) + [("tables", Sequence(tables))]);
  }

  /** _serialize_source_file: the loop over sources, each written in order under `sources`. */
  method SerializeSourceFile(sourceFile: DbtSourceFile) returns (data: Node)
    ensures data == FileNode(sourceFile)
  {
    var sources: seq<Node> := [];
    for i := 0 to |sourceFile.sources|
      invariant |sources| == i
      invariant forall k :: 0 <= k < i ==> sources[k] == SourceNode(sourceFile.sources[k])
    {
      var source := SerializeSource(sourceFile.sources[i]);
      sources := sources + [source];
    }
    assert sources == SourceNodes(sourceFile.sources);
    data := Mapping([("version", Int(sourceFile.version)), ("sources", Sequence(sources))]);
  }

  // ---------------------------------------------------------------------------------------
  // Parsing: tree -> document model
  // ---------------------------------------------------------------------------------------

  /** Why a loaded tree is not a sources document: a value used as a mapping is not one, a value
      iterated as a list of mappings is not one, a `name` key is missing, or a field has a value
      of the wrong kind for the document model. */
  datatype ParseError = NotAMapping | NotAList | MissingName | InvalidField

  /** Iterating `mapping.get(key, [])`: a missing key, an empty string and an empty mapping give
      no items; any other non-list value fails. */
  function ListItems(v: Option<Node>): Result<seq<Node>, ParseError>
  {
    match v
    case None => Ok([])
    case Some(Sequence(items)) => Ok(items)
    case Some(n) => if n == Str("") || n == Mapping([]) then Ok([]) else Err(NotAList)
  }

  /** `if table_data.get("columns"):` iterate it: a missing or falsy value gives no items. */
  function ColumnItems(v: Option<Node>): Result<seq<Node>, ParseError>
  {
    if v.None? || !Truthy(v.value) then Ok([])
    else if v.value.Sequence? then Ok(v.value.items)
    else Err(NotAList)
  }

  /** `data["name"]`: required, and a string. */
  function NameField(e: seq<(string, Node)>): Result<string, ParseError>
  {
    match Get(e, "name")
    case None => Err(MissingName)
    case Some(Str(s)) => Ok(s)
    case Some(_) => Err(InvalidField)
  }

  /** `data.get(key)` for an optional string field: missing or null gives None. */
  function TextField(v: Option<Node>): Result<Option<string>, ParseError>
  {
    match v
    case None => Ok(None)
    case Some(Null) => Ok(None)
    case Some(Str(s)) => Ok(Some(s))
    case Some(_) => Err(InvalidField)
  }

  /** `data.get("description", "")`. */
  function DescriptionField(v: Option<Node>): Result<string, ParseError>
  {
    match v
    case None => Ok("")
    case Some(Str(s)) => Ok(s)
    case Some(_) => Err(InvalidField)
  }

  /** `data.get(key)` for meta and tests: missing or null gives None. */
  function ValueField(v: Option<Node>): Option<Node>
  {
    match v
    case None => None
    case Some(Null) => None
    case Some(n) => Some(n)
  }

  /** `data.get("version", 2)`. */
  function VersionField(v: Option<Node>): Result<int, ParseError>
  {
    match v
    case None => Ok(2)
    case Some(Int(i)) => Ok(i)
    case Some(_) => Err(InvalidField)
  }

  /** Parse every item in order; the first failure is the result. */
  function ParseEach<T>(items: seq<Node>, parse: Node -> Result<T, ParseError>): Result<seq<T>, ParseError>
  {
    if items == [] then Ok([])
    else
      var init :- ParseEach(items[..|items| - 1], parse);
      var last :- parse(items[|items| - 1]);
      Ok(init + [last])
  }

  function ColumnFromNode(n: Node): Result<DbtColumn, ParseError>
  {
    if !n.Mapping? then Err(NotAMapping)
    else
      var e := n.entries;
      var name :- NameField(e);
      var dataType :- TextField(Get(e, "data_type"));
      var description :- DescriptionField(Get(e, "description"));
      Ok(DbtColumn(name, dataType, description, ValueField(Get(e, "meta")), ValueField(Get(e, "tests"))))
  }

  /** The table built from a mapping's own fields once its columns are parsed. */
  function TableFromFields(e: seq<(string, Node)>, columns: seq<DbtColumn>): Result<DbtTable, ParseError>
  {
    var name :- NameField(e);
    var identifier :- TextField(Get(e, "identifier"));
    var description :- DescriptionField(Get(e, "description"));
    Ok(DbtTable(name, identifier, description, Some(columns), ValueField(Get(e, "meta")), ValueField(Get(e, "tests"))))
  }

  function TableFromNode(n: Node): Result<DbtTable, ParseError>
  {
    if !n.Mapping? then Err(NotAMapping)
    else
      var items :- ColumnItems(Get(n.entries, "columns"));
      var columns :- ParseEach(items, ColumnFromNode);
      TableFromFields(n.entries, columns)
  }

  /** The source built from a mapping's own fields once its tables are parsed. */
  function SourceFromFields(e: seq<(string, Node)>, tables: seq<DbtTable>): Result<DbtSource, ParseError>
  {
    var name :- NameField(e);
    var database :- TextField(Get(e, "database"));
    var schemaName :- TextField(Get(e, "schema"));
    var description :- DescriptionField(Get(e, "description"));
    Ok(DbtSource(name, database, schemaName, description, tables, ValueField(Get(e, "meta"))))
  }

  function SourceFromNode(n: Node): Result<DbtSource, ParseError>
  {
    if !n.Mapping? then Err(NotAMapping)
    else
      var items :- ListItems(Get(n.entries, "tables"));
      var tables :- ParseEach(items, TableFromNode);
      SourceFromFields(n.entries, tables)
  }

  function FileFromNode(n: Node): Result<DbtSourceFile, ParseError>
  {
    if !n.Mapping? then Err(NotAMapping)
    else
      var items :- ListItems(Get(n.entries, "sources"));
      var sources :- ParseEach(items, SourceFromNode);
      var version :- VersionField(Get(n.entries, "version"));
      Ok(DbtSourceFile(version, sources))
  }

  /** Once a prefix of the items parses and the next item fails, the whole list fails with that
      item's error. */
  lemma {:induction false} ParseEachStopsAt<T>(items: seq<Node>, parse: Node -> Result<T, ParseError>, i: int)
    requires 0 <= i < |items|
    requires ParseEach(items[..i], parse).Ok? && parse(items[i]).Err?
    ensures ParseEach(items, parse) == Err(parse(items[i]).error)
  {
    var n := |items| - 1;
    if i == n {
      assert items[..n] == items[..i];
    } else {
      assert items[..n][..i] == items[..i];
      ParseEachStopsAt(items[..n], parse, i);
    }
  }

  /** _parse_source_file, the loop over one table's columns. */
  method ParseTable(tableData: Node) returns (r: Result<DbtTable, ParseError>)
    ensures r == TableFromNode(tableData)
  {
    if !tableData.Mapping? {
      return Err(NotAMapping);
    }
    var e := tableData.entries;
    var columns: seq<DbtColumn> := [];
    var v := Get(e, "columns");
    if v.Some? && Truthy(v.value) {
      if !v.value.Sequence? {
        return Err(NotAList);
      }
      var items := v.value.items;
      for i := 0 to |items|
        invariant ParseEach(items[..i], ColumnFromNode) == Ok(columns)
      {
        var column := ColumnFromNode(items[i]);
        if column.Err? {
          ParseEachStopsAt(items, ColumnFromNode, i);
          return Err(column.error);
        }
        assert items[..i + 1][..i] == items[..i];
        columns := columns + [column.value];
      }
      assert items[..|items|] == items;
    }
    r := TableFromFields(e, columns);
  }

  /** _parse_source_file, the loop over one source's tables. */
  method ParseSource(sourceData: Node) returns (r: Result<DbtSource, ParseError>)
    ensures r == SourceFromNode(sourceData)
  {
    if !sourceData.Mapping? {
      return Err(NotAMapping);
    }
    var e := sourceData.entries;
    var found := ListItems(Get(e, "tables"));
    if found.Err? {
      return Err(found.error);
    }
    var items := found.value;
    var tables: seq<DbtTable> := [];
    for i := 0 to |items|
      invariant ParseEach(items[..i], TableFromNode) == Ok(tables)
    {
      var table := ParseTable(items[i]);
      if table.Err? {
        ParseEachStopsAt(items, TableFromNode, i);
        return Err(table.error);
      }
      assert items[..i + 1][..i] == items[..i];
      tables := tables + [table.value];
    }
    assert items[..|items|] == items;
    r := SourceFromFields(e, tables);
  }

  /** _parse_source_file, the loop over the document's sources. */
  method ParseSourceFile(data: Node) returns (r: Result<DbtSourceFile, ParseError>)
    ensures r == FileFromNode(data)
  {
    if !data.Mapping? {
      return Err(NotAMapping);
    }
    var e := data.entries;
    var found := ListItems(Get(e, "sources"));
    if found.Err? {
      return Err(found.error);
    }
    var items := found.value;
    var sources: seq<DbtSource> := [];
    for i := 0 to |items|
      invariant ParseEach(items[..i], SourceFromNode) == Ok(sources)
    {
      var source := ParseSource(items[i]);
      if source.Err? {
        ParseEachStopsAt(items, SourceFromNode, i);
        return Err(source.error);
      }
      assert items[..i + 1][..i] == items[..i];
      sources := sources + [source.value];
    }
    assert items[..|items|] == items;
    var version := VersionField(Get(e, "version"));
    if version.Err? {
      return Err(version.error);
    }
    r := Ok(DbtSourceFile(version.value, sources));
  }
}
