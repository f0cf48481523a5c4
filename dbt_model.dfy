/** The entities the merge works on: the BigQuery snapshot (tables with ordered columns) and
    the dbt source document (file, sources, tables, columns). All are immutable values. */
module DbtModel {
  import opened Wrappers
  import opened YamlTree

  /** One column of a BigQuery table. */
  datatype BigQueryColumn = BigQueryColumn(name: string, fieldType: string, description: Option<string>)

  /** One BigQuery table with its columns in schema order. */
  datatype BigQueryTable = BigQueryTable(tableId: string, description: Option<string>, columns: seq<BigQueryColumn>)

  /** A column of a dbt source table; `meta` and `tests` are user data carried as YAML values. */
  datatype DbtColumn = DbtColumn(
    name: string,
    dataType: Option<string>,
    description: string,
    meta: Option<Node>,
    tests: Option<Node>)

  /** A dbt source table; `identifier` lets the dbt name differ from the BigQuery table id. */
  datatype DbtTable = DbtTable(
    name: string,
    identifier: Option<string>,
    description: string,
    columns: Option<seq<DbtColumn>>,
    meta: Option<Node>,
    tests: Option<Node>)

  /** A dbt source: one BigQuery dataset (`schemaName`) in one project (`database`). */
  datatype DbtSource = DbtSource(
    name: string,
    database: Option<string>,
    schemaName: Option<string>,
    description: string,
    tables: seq<DbtTable>,
    meta: Option<Node>)

  /** A whole sources document. */
  datatype DbtSourceFile = DbtSourceFile(version: int, sources: seq<DbtSource>)

  function ColumnName(c: DbtColumn): string { c.name }
  function TableName(t: DbtTable): string { t.name }
  function BqColumnName(c: BigQueryColumn): string { c.name }
  function TableId(t: BigQueryTable): string { t.tableId }

  /** Python truthiness of an optional string: present and non-empty. */
  predicate HasText(o: Option<string>) {
    o.Some? && o.value != ""
  }

  /** Python truthiness of an optional YAML value: present and truthy. */
  predicate HasValue(o: Option<Node>) {
    o.Some? && Truthy(o.value)
  }

  /** `columns if columns else []`. */
  function ColumnsOrEmpty(o: Option<seq<DbtColumn>>): seq<DbtColumn>
  {
    if o.Some? then o.value else []
  }
}
