/** What the YAML handler promises: keys in a fixed order, empty optional fields left out,
    defaults for missing keys, a required `name`, order of sources, tables and columns kept,
    and reading back what was written. */
module YamlProperties {
  import opened Wrappers
  import opened YamlTree
  import opened DbtModel
  import opened YamlHandler

  // ---------------------------------------------------------------------------------------
  // Key order and omitted keys
  // ---------------------------------------------------------------------------------------

  /** `[k]` when `present`, else nothing. */
  function Flag(present: bool, k: string): seq<string>
  {
    if present then [k] else []
  }

  /** An optional entry (none or one) in front of the rest of a mapping. */
  lemma OptionalEntry(piece: seq<(string, Node)>, rest: seq<(string, Node)>, key: string)
    requires |piece| <= 1
    ensures Keys(piece + rest) == (if piece == [] then [] else [piece[0].0]) + Keys(rest)
    ensures Get(piece + rest, key) == if piece != [] && piece[0].0 == key then Some(piece[0].1) else Get(rest, key)
  {
    KeysAppend(piece, rest);
    if piece == [] {
      assert piece + rest == rest;
    } else {
      assert piece == [piece[0]];
      GetCons(piece[0].0, piece[0].1, rest, key);
    }
  }

  /** An optional entry on its own. */
  lemma LastEntry(piece: seq<(string, Node)>, key: string)
    requires |piece| <= 1
    ensures Keys(piece) == if piece == [] then [] else [piece[0].0]
    ensures Get(piece, key) == if piece != [] && piece[0].0 == key then Some(piece[0].1) else None
  {
    if piece != [] {
      assert piece == [piece[0]];
      GetOne(piece[0].0, piece[0].1, key);
    }
  }

  /** The key an optional text entry contributes. */
  lemma TextEntryKeys(k: string, o: Option<string>)
    ensures Keys(TextEntry(k, o)) == Flag(HasText(o), k)
  {
    LastEntry(TextEntry(k, o), k);
  }

  /** The key an optional string entry contributes. */
  lemma StringEntryKeys(k: string, v: string)
    ensures Keys(StringEntry(k, v)) == Flag(v != "", k)
  {
    LastEntry(StringEntry(k, v), k);
  }

  /** The key an optional value entry contributes. */
  lemma ValueEntryKeys(k: string, o: Option<Node>)
    ensures Keys(ValueEntry(k, o)) == Flag(HasValue(o), k)
  {
    LastEntry(ValueEntry(k, o), k);
  }

  /** What a written column mapping holds under each key. */
  lemma ColumnLookup(c: DbtColumn, key: string)
    ensures Get(ColumnNode(c).entries, key)
            == if key == "name" then Some(Str(c.name))
               else if key == "data_type" && HasText(c.dataType) then Some(Str(c.dataType.value))
               else if key == "description" && c.description != "" then Some(Str(c.description))
               else if key == "meta" && HasValue(c.meta) then c.meta
               else if key == "tests" && HasValue(c.tests) then c.tests
               else None
  {
    var b := TextEntry("data_type", c.dataType);
    var d := StringEntry("description", c.description);
    var m := ValueEntry("meta", c.meta);
    var t := ValueEntry("tests", c.tests);
    GetCons("name", Str(c.name), b + (d + (m + t)), key);
    OptionalEntry(b, d + (m + t), key);
    OptionalEntry(d, m + t, key);
    OptionalEntry(m, t, key);
    LastEntry(t, key);
  }

  /** Column keys: name, data_type, description, meta, tests, in that order; each optional key
      is written exactly when its field is set and non-empty. */
  lemma ColumnKeys(c: DbtColumn)
    ensures Keys(ColumnNode(c).entries)
            == ["name"] + (Flag(HasText(c.dataType), "data_type") + (Flag(c.description != "", "description")
               + (Flag(HasValue(c.meta), "meta") + Flag(HasValue(c.tests), "tests"))))
  {
    var b := TextEntry("data_type", c.dataType);
    var d := StringEntry("description", c.description);
    var m := ValueEntry("meta", c.meta);
    var t := ValueEntry("tests", c.tests);
    KeysAppend([("name", Str(c.name))], b + (d + (m + t)));
    KeysAppend(b, d + (m + t));
    KeysAppend(d, m + t);
    KeysAppend(m, t);
    TextEntryKeys("data_type", c.dataType);
    StringEntryKeys("description", c.description);
    ValueEntryKeys("meta", c.meta);
    ValueEntryKeys("tests", c.tests);
  }

  /** A column's optional key is present exactly when its field is set and non-empty. */
  lemma ColumnKeysPresent(c: DbtColumn)
    ensures "name" in Keys(ColumnNode(c).entries)
    ensures "data_type" in Keys(ColumnNode(c).entries) <==> HasText(c.dataType)
    ensures "description" in Keys(ColumnNode(c).entries) <==> c.description != ""
    ensures "meta" in Keys(ColumnNode(c).entries) <==> HasValue(c.meta)
    ensures "tests" in Keys(ColumnNode(c).entries) <==> HasValue(c.tests)
  {
    var e := ColumnNode(c).entries;
    ColumnLookup(c, "name");
    GetFinds(e, "name");
    ColumnLookup(c, "data_type");
    GetFinds(e, "data_type");
    ColumnLookup(c, "description");
    GetFinds(e, "description");
    ColumnLookup(c, "meta");
    GetFinds(e, "meta");
    ColumnLookup(c, "tests");
    GetFinds(e, "tests");
  }

  /** What the head of a written table mapping (everything but `columns`) holds. */
  lemma TableHeadLookup(t: DbtTable, key: string)
    ensures Get(TableHead(t), key)
            == if key == "name" then Some(Str(t.name))
               else if key == "identifier" && HasText(t.identifier) then Some(Str(t.identifier.value))
               else if key == "description" && t.description != "" then Some(Str(t.description))
               else if key == "meta" && HasValue(t.meta) then t.meta
               else if key == "tests" && HasValue(t.tests) then t.tests
               else None
  {
    var b := TextEntry("identifier", t.identifier);
    var d := StringEntry("description", t.description);
    var m := ValueEntry("meta", t.meta);
    var ts := ValueEntry("tests", t.tests);
    GetCons("name", Str(t.name), b + (d + (m + ts)), key);
    OptionalEntry(b, d + (m + ts), key);
    OptionalEntry(d, m + ts, key);
    OptionalEntry(m, ts, key);
    LastEntry(ts, key);
  }

  lemma TableHeadKeys(t: DbtTable)
    ensures Keys(TableHead(t))
            == ["name"] + (Flag(HasText(t.identifier), "identifier") + (Flag(t.description != "", "description")
               + (Flag(HasValue(t.meta), "meta") + Flag(HasValue(t.tests), "tests"))))
  {
    var b := TextEntry("identifier", t.identifier);
    var d := StringEntry("description", t.description);
    var m := ValueEntry("meta", t.meta);
    var ts := ValueEntry("tests", t.tests);
    KeysAppend([("name", Str(t.name))], b + (d + (m + ts)));
    KeysAppend(b, d + (m + ts));
    KeysAppend(d, m + ts);
    KeysAppend(m, ts);
    TextEntryKeys("identifier", t.identifier);
    StringEntryKeys("description", t.description);
    ValueEntryKeys("meta", t.meta);
    ValueEntryKeys("tests", t.tests);
  }

  /** The optional `columns` entry of a written table. */
  function ColumnsEntry(t: DbtTable): seq<(string, Node)>
  {
    if ColumnsOrEmpty(t.columns) != [] then [("columns", Sequence(ColumnNodes(ColumnsOrEmpty(t.columns))))] else []
  }

  /** What a written table mapping holds under each key. */
  lemma TableLookup(t: DbtTable, key: string)
    ensures Get(TableNode(t).entries, key)
            == if key == "columns" then
                 (if ColumnsOrEmpty(t.columns) != [] then Some(Sequence(ColumnNodes(ColumnsOrEmpty(t.columns)))) else None)
               else Get(TableHead(t), key)
  {
    assert TableNode(t).entries == TableHead(t) + ColumnsEntry(t);
    GetAppend(TableHead(t), ColumnsEntry(t), key);
    if key == "columns" {
      TableHeadLookup(t, key);
    }
    GetFinds(TableHead(t), key);
    LastEntry(ColumnsEntry(t), key);
  }

  /** Table keys: name, identifier, description, meta, tests, columns, in that order; each
      optional key is written exactly when its field is set and non-empty, and `columns` exactly
      when the table has at least one column. */
  lemma TableKeys(t: DbtTable)
    ensures Keys(TableNode(t).entries)
            == ["name"] + (Flag(HasText(t.identifier), "identifier") + (Flag(t.description != "", "description")
               + (Flag(HasValue(t.meta), "meta") + Flag(HasValue(t.tests), "tests"))))
               + Flag(ColumnsOrEmpty(t.columns) != [], "columns")
  {
    assert TableNode(t).entries == TableHead(t) + ColumnsEntry(t);
    KeysAppend(TableHead(t), ColumnsEntry(t));
    TableHeadKeys(t);
    LastEntry(ColumnsEntry(t), "");
  }

  /** A table's optional key is present exactly when its field is set and non-empty. */
  lemma TableKeysPresent(t: DbtTable)
    ensures "name" in Keys(TableNode(t).entries)
    ensures "identifier" in Keys(TableNode(t).entries) <==> HasText(t.identifier)
    ensures "description" in Keys(TableNode(t).entries) <==> t.description != ""
    ensures "meta" in Keys(TableNode(t).entries) <==> HasValue(t.meta)
    ensures "tests" in Keys(TableNode(t).entries) <==> HasValue(t.tests)
    ensures "columns" in Keys(TableNode(t).entries) <==> ColumnsOrEmpty(t.columns) != []
  {
    var e := TableNode(t).entries;
    TableLookup(t, "name");
    TableHeadLookup(t, "name");
    GetFinds(e, "name");
    TableLookup(t, "identifier");
    TableHeadLookup(t, "identifier");
    GetFinds(e, "identifier");
    TableLookup(t, "description");
    TableHeadLookup(t, "description");
    GetFinds(e, "description");
    TableLookup(t, "meta");
    TableHeadLookup(t, "meta");
    GetFinds(e, "meta");
    TableLookup(t, "tests");
    TableHeadLookup(t, "tests");
    GetFinds(e, "tests");
    TableLookup(t, "columns");
    GetFinds(e, "columns");
  }

  /** What the head of a written source mapping (everything but `tables`) holds. */
  lemma SourceHeadLookup(s: DbtSource, key: string)
    ensures Get(SourceHead(s), key)
            == if key == "name" then Some(Str(s.name))
               else if key == "database" && HasText(s.database) then Some(Str(s.database.value))
               else if key == "schema" && HasText(s.schemaName) then Some(Str(s.schemaName.value))
               else if key == "description" && s.description != "" then Some(Str(s.description))
               else if key == "meta" && HasValue(s.meta) then s.meta
               else None
  {
    var db := TextEntry("database", s.database);
    var sc := TextEntry("schema", s.schemaName);
    var d := StringEntry("description", s.description);
    var m := ValueEntry("meta", s.meta);
    GetCons("name", Str(s.name), db + (sc + (d + m)), key);
    OptionalEntry(db, sc + (d + m), key);
    OptionalEntry(sc, d + m, key);
    OptionalEntry(d, m, key);
    LastEntry(m, key);
  }

  lemma SourceHeadKeys(s: DbtSource)
    ensures Keys(SourceHead(s))
            == ["name"] + (Flag(HasText(s.database), "database") + (Flag(HasText(s.schemaName), "schema")
               + (Flag(s.description != "", "description") + Flag(HasValue(s.meta), "meta"))))
  {
    var db := TextEntry("database", s.database);
    var sc := TextEntry("schema", s.schemaName);
    var d := StringEntry("description", s.description);
    var m := ValueEntry("meta", s.meta);
    KeysAppend([("name", Str(s.name))], db + (sc + (d + m)));
    KeysAppend(db, sc + (d + m));
    KeysAppend(sc, d + m);
    KeysAppend(d, m);
    TextEntryKeys("database", s.database);
    TextEntryKeys("schema", s.schemaName);
    StringEntryKeys("description", s.description);
    ValueEntryKeys("meta", s.meta);
  }

  /** What a written source mapping holds under each key. */
  lemma SourceLookup(s: DbtSource, key: string)
    ensures Get(SourceNode(s).entries, key)
            == if key == "tables" then Some(Sequence(TableNodes(s.tables))) else Get(SourceHead(s), key)
  {
    var tl := [("tables", Sequence(TableNodes(s.tables)))];
    GetAppend(SourceHead(s), tl, key);
    if key == "tables" {
      SourceHeadLookup(s, key);
    }
    GetFinds(SourceHead(s), key);
    GetOne("tables", Sequence(TableNodes(s.tables)), key);
  }

  /** Source keys: name, database, schema, description, meta, tables, in that order; each
      optional key is written exactly when its field is set and non-empty; `tables` always. */
  lemma SourceKeys(s: DbtSource)
    ensures Keys(SourceNode(s).entries)
            == ["name"] + (Flag(HasText(s.database), "database") + (Flag(HasText(s.schemaName), "schema")
               + (Flag(s.description != "", "description") + Flag(HasValue(s.meta), "meta"))))
               + ["tables"]
  {
    var tl := [("tables", Sequence(TableNodes(s.tables)))];
    KeysAppend(SourceHead(s), tl);
    SourceHeadKeys(s);
    LastEntry(tl, "");
  }

  /** A source's optional key is present exactly when its field is set and non-empty. */
  lemma SourceKeysPresent(s: DbtSource)
    ensures "name" in Keys(SourceNode(s).entries) && "tables" in Keys(SourceNode(s).entries)
    ensures "database" in Keys(SourceNode(s).entries) <==> HasText(s.database)
    ensures "schema" in Keys(SourceNode(s).entries) <==> HasText(s.schemaName)
    ensures "description" in Keys(SourceNode(s).entries) <==> s.description != ""
    ensures "meta" in Keys(SourceNode(s).entries) <==> HasValue(s.meta)
    ensures "schema_name" !in Keys(SourceNode(s).entries)
  {
    var e := SourceNode(s).entries;
    SourceLookup(s, "name");
    SourceHeadLookup(s, "name");
    GetFinds(e, "name");
    SourceLookup(s, "tables");
    GetFinds(e, "tables");
    SourceLookup(s, "database");
    SourceHeadLookup(s, "database");
    GetFinds(e, "database");
    SourceLookup(s, "schema");
    SourceHeadLookup(s, "schema");
    GetFinds(e, "schema");
    SourceLookup(s, "description");
    SourceHeadLookup(s, "description");
    GetFinds(e, "description");
    SourceLookup(s, "meta");
    SourceHeadLookup(s, "meta");
    GetFinds(e, "meta");
    SourceLookup(s, "schema_name");
    SourceHeadLookup(s, "schema_name");
    GetFinds(e, "schema_name");
  }

  /** Document keys: version, then sources, both always. */
  lemma FileKeys(f: DbtSourceFile)
    ensures Keys(FileNode(f).entries) == ["version", "sources"]
  {
  }

  /** The `schemaName` field is written under the key "schema" (see `SourceKeysPresent`:
      never "schema_name") and read back from "schema". */
  lemma SchemaKey(s: DbtSource, e: seq<(string, Node)>)
    ensures Get(SourceNode(s).entries, "schema") == if HasText(s.schemaName) then Some(Str(s.schemaName.value)) else None
    ensures SourceFromNode(Mapping(e)).Ok? ==>
              SourceFromNode(Mapping(e)).value.schemaName
              == (if Get(e, "schema").Some? && Get(e, "schema").value.Str? then Some(Get(e, "schema").value.text) else None)
  {
    SourceLookup(s, "schema");
    SourceHeadLookup(s, "schema");
    if SourceFromNode(Mapping(e)).Ok? {
      var items := ListItems(Get(e, "tables")).value;
      var tables := ParseEach(items, TableFromNode).value;
      assert SourceFromNode(Mapping(e)) == SourceFromFields(e, tables);
    }
  }

  // ---------------------------------------------------------------------------------------
  // Parse defaults and the required name
  // ---------------------------------------------------------------------------------------

  /** Missing column keys: description "", data_type, meta and tests none. */
  lemma ColumnDefaults(e: seq<(string, Node)>)
    ensures ColumnFromNode(Mapping(e)).Ok? ==>
      var c := ColumnFromNode(Mapping(e)).value;
      && (Get(e, "description").None? ==> c.description == "")
      && (Get(e, "data_type").None? ==> c.dataType.None?)
      && (Get(e, "meta").None? ==> c.meta.None?)
      && (Get(e, "tests").None? ==> c.tests.None?)
  {
  }

  /** A mapping holding only a name is a column with every other field at its default. */
  lemma NameOnlyColumn(n: string)
    ensures ColumnFromNode(Mapping([("name", Str(n))])) == Ok(DbtColumn(n, None, "", None, None))
  {
    var e := [("name", Str(n))];
    GetOne("name", Str(n), "name");
    GetOne("name", Str(n), "data_type");
    GetOne("name", Str(n), "description");
    GetOne("name", Str(n), "meta");
    GetOne("name", Str(n), "tests");
  }

  /** Missing table keys: description "", identifier, meta and tests none, and a missing or
      empty `columns` gives the empty column list. */
  lemma TableDefaults(e: seq<(string, Node)>)
    ensures TableFromNode(Mapping(e)).Ok? ==>
      var t := TableFromNode(Mapping(e)).value;
      && (Get(e, "description").None? ==> t.description == "")
      && (Get(e, "identifier").None? ==> t.identifier.None?)
      && (Get(e, "meta").None? ==> t.meta.None?)
      && (Get(e, "tests").None? ==> t.tests.None?)
      && (Get(e, "columns").None? || !Truthy(Get(e, "columns").value) ==> t.columns == Some([]))
  {
    if TableFromNode(Mapping(e)).Ok? {
      var items := ColumnItems(Get(e, "columns")).value;
      var columns := ParseEach(items, ColumnFromNode).value;
      assert TableFromNode(Mapping(e)) == TableFromFields(e, columns);
      if Get(e, "columns").None? || !Truthy(Get(e, "columns").value) {
        assert items == [];
      }
    }
  }

  /** A mapping holding only a name is a table with no columns and every other field at its
      default. */
  lemma NameOnlyTable(n: string)
    ensures TableFromNode(Mapping([("name", Str(n))])) == Ok(DbtTable(n, None, "", Some([]), None, None))
  {
    GetOne("name", Str(n), "columns");
    GetOne("name", Str(n), "name");
    GetOne("name", Str(n), "identifier");
    GetOne("name", Str(n), "description");
    GetOne("name", Str(n), "meta");
    GetOne("name", Str(n), "tests");
  }

  /** Missing source keys: description "", database, schema and meta none, no tables. */
  lemma SourceDefaults(e: seq<(string, Node)>)
    ensures SourceFromNode(Mapping(e)).Ok? ==>
      var s := SourceFromNode(Mapping(e)).value;
      && (Get(e, "description").None? ==> s.description == "")
      && (Get(e, "database").None? ==> s.database.None?)
      && (Get(e, "schema").None? ==> s.schemaName.None?)
      && (Get(e, "meta").None? ==> s.meta.None?)
      && (Get(e, "tables").None? ==> s.tables == [])
  {
    if SourceFromNode(Mapping(e)).Ok? {
      var items := ListItems(Get(e, "tables")).value;
      var tables := ParseEach(items, TableFromNode).value;
      assert SourceFromNode(Mapping(e)) == SourceFromFields(e, tables);
    }
  }

  /** A mapping holding only a name is a source with no tables and every other field at its
      default. */
  lemma NameOnlySource(n: string)
    ensures SourceFromNode(Mapping([("name", Str(n))])) == Ok(DbtSource(n, None, None, "", [], None))
  {
    GetOne("name", Str(n), "tables");
    GetOne("name", Str(n), "name");
    GetOne("name", Str(n), "database");
    GetOne("name", Str(n), "schema");
    GetOne("name", Str(n), "description");
    GetOne("name", Str(n), "meta");
  }

  /** Missing document keys: version 2, no sources; the empty mapping is the empty document. */
  lemma FileDefaults(e: seq<(string, Node)>)
    ensures FileFromNode(Mapping(e)).Ok? ==>
      var f := FileFromNode(Mapping(e)).value;
      && (Get(e, "version").None? ==> f.version == 2)
      && (Get(e, "sources").None? ==> f.sources == [])
    ensures FileFromNode(Mapping([])) == Ok(DbtSourceFile(2, []))
  {
  }

  /** If any item fails to parse, the whole list fails. */
  lemma {:induction false} ParseEachFailsIfAnyFails<T>(items: seq<Node>, parse: Node -> Result<T, ParseError>, i: int)
    requires 0 <= i < |items| && parse(items[i]).Err?
    ensures ParseEach(items, parse).Err?
  {
    var n := |items| - 1;
    if i < n {
      assert items[..n][i] == items[i];
      ParseEachFailsIfAnyFails(items[..n], parse, i);
    }
  }

  /** Every source, table and column mapping needs a `name` key; a table, source or document
      listing a mapping that lacks it cannot be read. */
  lemma NameRequired(e: seq<(string, Node)>, items: seq<Node>, i: int)
    ensures Get(e, "name").None? ==> ColumnFromNode(Mapping(e)) == Err(MissingName)
    ensures Get(e, "name").None? ==> TableFromNode(Mapping(e)).Err?
    ensures Get(e, "name").None? ==> SourceFromNode(Mapping(e)).Err?
    ensures Get(e, "columns") == Some(Sequence(items)) && 0 <= i < |items| && items[i].Mapping?
              && Get(items[i].entries, "name").None?
            ==> TableFromNode(Mapping(e)).Err?
    ensures Get(e, "tables") == Some(Sequence(items)) && 0 <= i < |items| && items[i].Mapping?
              && Get(items[i].entries, "name").None?
            ==> SourceFromNode(Mapping(e)).Err?
    ensures Get(e, "sources") == Some(Sequence(items)) && 0 <= i < |items| && items[i].Mapping?
              && Get(items[i].entries, "name").None?
            ==> FileFromNode(Mapping(e)).Err?
  {
    if 0 <= i < |items| && items[i].Mapping? && Get(items[i].entries, "name").None? {
      NestedFailure(e, items, i);
    }
  }

  /** A column, table or source that fails to parse makes the table, source or document holding
      it fail too, so an error deep inside a document reaches the top. */
  lemma NestedFailure(e: seq<(string, Node)>, items: seq<Node>, i: int)
    ensures Get(e, "columns") == Some(Sequence(items)) && 0 <= i < |items| && ColumnFromNode(items[i]).Err?
            ==> TableFromNode(Mapping(e)).Err?
    ensures Get(e, "tables") == Some(Sequence(items)) && 0 <= i < |items| && TableFromNode(items[i]).Err?
            ==> SourceFromNode(Mapping(e)).Err?
    ensures Get(e, "sources") == Some(Sequence(items)) && 0 <= i < |items| && SourceFromNode(items[i]).Err?
            ==> FileFromNode(Mapping(e)).Err?
  {
    if 0 <= i < |items| {
      if ColumnFromNode(items[i]).Err? {
        ParseEachFailsIfAnyFails(items, ColumnFromNode, i);
      }
      if TableFromNode(items[i]).Err? {
        ParseEachFailsIfAnyFails(items, TableFromNode, i);
      }
      if SourceFromNode(items[i]).Err? {
        ParseEachFailsIfAnyFails(items, SourceFromNode, i);
      }
    }
  }

  // ---------------------------------------------------------------------------------------
  // Order and the round trip
  // ---------------------------------------------------------------------------------------

  /** Parsing a list keeps its length and order: item `i` becomes result `i`. */
  lemma {:induction false} ParseEachInOrder<T>(items: seq<Node>, parse: Node -> Result<T, ParseError>)
    requires ParseEach(items, parse).Ok?
    ensures |ParseEach(items, parse).value| == |items|
    ensures forall i :: 0 <= i < |items| ==> parse(items[i]) == Ok(ParseEach(items, parse).value[i])
  {
    if items != [] {
      var n := |items| - 1;
      ParseEachInOrder(items[..n], parse);
      forall i | 0 <= i < n ensures items[..n][i] == items[i] { }
    }
  }

  /** A list whose items all parse gives their results in order. */
  lemma {:induction false} ParseEachAllOk<T>(items: seq<Node>, parse: Node -> Result<T, ParseError>, rs: seq<T>)
    requires |rs| == |items|
    requires forall i :: 0 <= i < |items| ==> parse(items[i]) == Ok(rs[i])
    ensures ParseEach(items, parse) == Ok(rs)
  {
    if items != [] {
      var n := |items| - 1;
      ParseEachAllOk(items[..n], parse, rs[..n]);
      assert rs == rs[..n] + [rs[n]];
    }
  }

  /** The document as it reads back: unset or empty optional values become absent, and a table
      without a column list gets the empty one. */
  function CanonicalText(o: Option<string>): Option<string>
  {
    if HasText(o) then o else None
  }

  function CanonicalValue(o: Option<Node>): Option<Node>
  {
    if HasValue(o) then o else None
  }

  function CanonicalColumn(c: DbtColumn): DbtColumn
  {
    c.(dataType := CanonicalText(c.dataType), meta := CanonicalValue(c.meta), tests := CanonicalValue(c.tests))
  }

  function CanonicalColumns(cs: seq<DbtColumn>): (r: seq<DbtColumn>)
    ensures |r| == |cs|
  {
    seq(|cs|, i requires 0 <= i < |cs| => CanonicalColumn(cs[i]))
  }

  function CanonicalTable(t: DbtTable): DbtTable
  {
    t.(identifier := CanonicalText(t.identifier),
       columns := Some(CanonicalColumns(ColumnsOrEmpty(t.columns))),
       meta := CanonicalValue(t.meta), tests := CanonicalValue(t.tests))
  }

  function CanonicalTables(ts: seq<DbtTable>): (r: seq<DbtTable>)
    ensures |r| == |ts|
  {
    seq(|ts|, i requires 0 <= i < |ts| => CanonicalTable(ts[i]))
  }

  function CanonicalSource(s: DbtSource): DbtSource
  {
    s.(database := CanonicalText(s.database), schemaName := CanonicalText(s.schemaName),
       tables := CanonicalTables(s.tables), meta := CanonicalValue(s.meta))
  }

  function CanonicalFile(f: DbtSourceFile): DbtSourceFile
  {
    f.(sources := seq(|f.sources|, i requires 0 <= i < |f.sources| => CanonicalSource(f.sources[i])))
  }

  /** A written column reads back as its canonical form. */
  lemma ColumnRoundTrip(c: DbtColumn)
    ensures ColumnFromNode(ColumnNode(c)) == Ok(CanonicalColumn(c))
  {
    ColumnLookup(c, "name");
    ColumnLookup(c, "data_type");
    ColumnLookup(c, "description");
    ColumnLookup(c, "meta");
    ColumnLookup(c, "tests");
  }

  /** The column list of a written table reads back canonically and in order. */
  lemma TableColumnsRoundTrip(t: DbtTable)
    ensures ColumnItems(Get(TableNode(t).entries, "columns")) == Ok(ColumnNodes(ColumnsOrEmpty(t.columns)))
    ensures ParseEach(ColumnNodes(ColumnsOrEmpty(t.columns)), ColumnFromNode) == Ok(CanonicalColumns(ColumnsOrEmpty(t.columns)))
  {
    var cs := ColumnsOrEmpty(t.columns);
    var items := ColumnNodes(cs);
    TableLookup(t, "columns");
    forall i | 0 <= i < |items| ensures ColumnFromNode(items[i]) == Ok(CanonicalColumns(cs)[i]) {
      ColumnRoundTrip(cs[i]);
    }
    ParseEachAllOk(items, ColumnFromNode, CanonicalColumns(cs));
  }

  /** The fields of a written table, apart from its columns, read back canonically. */
  lemma TableFieldsRoundTrip(t: DbtTable, columns: seq<DbtColumn>)
    ensures TableFromFields(TableNode(t).entries, columns) == Ok(CanonicalTable(t).(columns := Some(columns)))
  {
    var e := TableNode(t).entries;
    assert Get(e, "name") == Some(Str(t.name)) by {
      TableLookup(t, "name");
      TableHeadLookup(t, "name");
    }
    assert Get(e, "identifier") == if HasText(t.identifier) then Some(Str(t.identifier.value)) else None by {
      TableLookup(t, "identifier");
      TableHeadLookup(t, "identifier");
    }
    assert Get(e, "description") == if t.description != "" then Some(Str(t.description)) else None by {
      TableLookup(t, "description");
      TableHeadLookup(t, "description");
    }
    assert Get(e, "meta") == CanonicalValue(t.meta) by {
      TableLookup(t, "meta");
      TableHeadLookup(t, "meta");
    }
    assert Get(e, "tests") == CanonicalValue(t.tests) by {
      TableLookup(t, "tests");
      TableHeadLookup(t, "tests");
    }
  }

  /** A written table reads back as its canonical form, columns in order. */
  lemma TableRoundTrip(t: DbtTable)
    ensures TableFromNode(TableNode(t)) == Ok(CanonicalTable(t))
  {
    var cs := CanonicalColumns(ColumnsOrEmpty(t.columns));
    TableColumnsRoundTrip(t);
    assert TableFromNode(TableNode(t)) == TableFromFields(TableNode(t).entries, cs);
    TableFieldsRoundTrip(t, cs);
  }

  /** The fields of a written source, apart from its tables, read back canonically. */
  lemma SourceFieldsRoundTrip(s: DbtSource, tables: seq<DbtTable>)
    ensures SourceFromFields(SourceNode(s).entries, tables) == Ok(CanonicalSource(s).(tables := tables))
  {
    var e := SourceNode(s).entries;
    assert Get(e, "name") == Some(Str(s.name)) by {
      SourceLookup(s, "name");
      SourceHeadLookup(s, "name");
    }
    assert Get(e, "database") == if HasText(s.database) then Some(Str(s.database.value)) else None by {
      SourceLookup(s, "database");
      SourceHeadLookup(s, "database");
    }
    assert Get(e, "schema") == if HasText(s.schemaName) then Some(Str(s.schemaName.value)) else None by {
      SourceLookup(s, "schema");
      SourceHeadLookup(s, "schema");
    }
    assert Get(e, "description") == if s.description != "" then Some(Str(s.description)) else None by {
      SourceLookup(s, "description");
      SourceHeadLookup(s, "description");
    }
    assert Get(e, "meta") == CanonicalValue(s.meta) by {
      SourceLookup(s, "meta");
      SourceHeadLookup(s, "meta");
    }
  }

  /** A written source reads back as its canonical form, tables in order. */
  lemma SourceRoundTrip(s: DbtSource)
    ensures SourceFromNode(SourceNode(s)) == Ok(CanonicalSource(s))
  {
    var e := SourceNode(s).entries;
    var items := TableNodes(s.tables);
    SourceLookup(s, "tables");
    forall i | 0 <= i < |items| ensures TableFromNode(items[i]) == Ok(CanonicalTables(s.tables)[i]) {
      TableRoundTrip(s.tables[i]);
    }
    ParseEachAllOk(items, TableFromNode, CanonicalTables(s.tables));
    assert SourceFromNode(SourceNode(s)) == SourceFromFields(e, CanonicalTables(s.tables));
    SourceFieldsRoundTrip(s, CanonicalTables(s.tables));
  }

  /** Reading back a written document gives the document with its unset or empty optional
      values absent and every column list present; sources, tables and columns keep their order. */
  lemma FileRoundTrip(f: DbtSourceFile)
    ensures FileFromNode(FileNode(f)) == Ok(CanonicalFile(f))
  {
    var items := SourceNodes(f.sources);
    var rs := CanonicalFile(f).sources;
    forall i | 0 <= i < |items| ensures SourceFromNode(items[i]) == Ok(rs[i]) {
      SourceRoundTrip(f.sources[i]);
    }
    ParseEachAllOk(items, SourceFromNode, rs);
    GetCons("version", Int(f.version), [("sources", Sequence(items))], "sources");
    GetOne("sources", Sequence(items), "sources");
    GetCons("version", Int(f.version), [("sources", Sequence(items))], "version");
  }

  /** A document whose optional values are absent or non-empty and whose tables all carry a
      column list. */
  predicate CanonicalColumnFields(c: DbtColumn)
  {
    (c.dataType.Some? ==> c.dataType.value != "") && (c.meta.Some? ==> Truthy(c.meta.value))
    && (c.tests.Some? ==> Truthy(c.tests.value))
  }

  predicate CanonicalTableFields(t: DbtTable)
  {
    (t.identifier.Some? ==> t.identifier.value != "") && (t.meta.Some? ==> Truthy(t.meta.value))
    && (t.tests.Some? ==> Truthy(t.tests.value)) && t.columns.Some?
    && forall c :: c in t.columns.value ==> CanonicalColumnFields(c)
  }

  predicate CanonicalSourceFields(s: DbtSource)
  {
    (s.database.Some? ==> s.database.value != "") && (s.schemaName.Some? ==> s.schemaName.value != "")
    && (s.meta.Some? ==> Truthy(s.meta.value))
    && forall t :: t in s.tables ==> CanonicalTableFields(t)
  }

  predicate IsCanonical(f: DbtSourceFile)
  {
    forall s :: s in f.sources ==> CanonicalSourceFields(s)
  }

  /** Round trip: a document whose optional values are absent or non-empty, and whose tables all
      carry a column list, reads back exactly as it was written. */
  lemma RoundTrip(f: DbtSourceFile)
    requires IsCanonical(f)
    ensures FileFromNode(FileNode(f)) == Ok(f)
  {
    FileRoundTrip(f);
    var g := CanonicalFile(f);
    forall i | 0 <= i < |f.sources| ensures g.sources[i] == f.sources[i] {
      var s := f.sources[i];
      assert CanonicalSourceFields(s);
      forall j | 0 <= j < |s.tables| ensures CanonicalTable(s.tables[j]) == s.tables[j] {
        var t := s.tables[j];
        assert CanonicalTableFields(t);
        var cs := t.columns.value;
        forall k | 0 <= k < |cs| ensures CanonicalColumn(cs[k]) == cs[k] {
          assert CanonicalColumnFields(cs[k]);
        }
        assert CanonicalColumns(cs) == cs;
      }
      assert CanonicalTables(s.tables) == s.tables;
    }
    assert g.sources == f.sources;
  }

  /** A table written without columns reads back with the empty column list. */
  lemma EmptyColumnsRoundTrip(t: DbtTable)
    requires ColumnsOrEmpty(t.columns) == []
    ensures TableFromNode(TableNode(t)).Ok? && TableFromNode(TableNode(t)).value.columns == Some([])
  {
    TableRoundTrip(t);
  }
}
