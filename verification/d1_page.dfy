/** The D1 page: database selection, the table list, and the results
    panel with its cell formatting. */
module D1Page {
  import opened Wrappers
  import opened Types
  import opened Bindings
  import opened D1Routes

  /** What one table cell shows: the italic null marker, or text. */
  datatype CellView = NullMarker | Text(text: string)

  /** `v === null ? <null marker> : typeof v === "object" ?
      JSON.stringify(v) : String(v)` */
  function FormatCell(c: Cell): (view: CellView)
    ensures view.NullMarker? <==> c.NullCell?
    ensures c.ObjectCell? ==> view == Text(c.json)
    ensures c.TextCell? ==> view == Text(c.text)
  {
    match c
    case NullCell => NullMarker
    case ObjectCell(json) => Text(json)
    case TextCell(text) => Text(text)
  }

  /** Cell j of a row; an index past the end of the row reads `undefined`,
      which is not `null` and renders as `String(undefined)`. */
  function CellOf(row: seq<Cell>, j: nat): (c: CellView)
    ensures j < |row| ==> c == FormatCell(row[j])
    ensures j >= |row| ==> c == Text("undefined")
  {
    if j >= |row| then Text("undefined") else FormatCell(row[j])
  }

  /** Every rendered row has one cell per column. */
  function RenderRow(columns: seq<string>, row: seq<Cell>): (cells: seq<CellView>)
    ensures |cells| == |columns|
    ensures forall j :: 0 <= j < |columns| ==> cells[j] == CellOf(row, j)
  {
    seq(|columns|, j requires 0 <= j < |columns| => CellOf(row, j))
  }

  datatype ResultsView =
    | Placeholder
    | ErrorPanel(message: string)
    | ResultTable(header: seq<string>, body: seq<seq<CellView>>)
    | NoResults

  /** `D1Results`: exactly one state, chosen in this order: no result yet,
      a (non-empty) error, rows, and otherwise "No results returned". */
  function ResultsOf(queryResult: Option<QueryResult>): (v: ResultsView)
    ensures v.Placeholder? <==> queryResult.None?
    ensures v.ErrorPanel? <==> queryResult.Some? && queryResult.value.error.Some? && queryResult.value.error.value != ""
    ensures v.ErrorPanel? ==> v.message == queryResult.value.error.value
    ensures v.ResultTable? <==>
      && queryResult.Some? && !(queryResult.value.error.Some? && queryResult.value.error.value != "")
      && |queryResult.value.rows| > 0
    ensures v.ResultTable? ==>
      && v.header == queryResult.value.columns
      && |v.body| == |queryResult.value.rows|
      && forall i :: 0 <= i < |v.body| ==> v.body[i] == RenderRow(v.header, queryResult.value.rows[i])
  {
    if queryResult.None? then Placeholder
    else
      var r := queryResult.value;
      if r.error.Some? && r.error.value != "" then ErrorPanel(r.error.value)
      else if |r.rows| > 0 then
        ResultTable(r.columns, seq(|r.rows|, i requires 0 <= i < |r.rows| => RenderRow(r.columns, r.rows[i])))
      else NoResults
  }

  /** A failed query shows its error and never a table, whatever rows it
      carries. */
  lemma ErrorBeatsRows(columns: seq<string>, rows: seq<seq<Cell>>, message: string)
    requires message != ""
    ensures ResultsOf(Some(QueryResult(columns, rows, Some(message)))) == ErrorPanel(message)
  {
  }

  /** Results shaped from a SQL answer display every value where it came
      from: row i, column j shows the formatted value of result i under
      column j, and no cell is past the end of its row. */
  lemma ShapedResultsDisplayFaithfully(results: seq<Row>, i: nat, j: nat)
    requires i < |results| && j < |results[i]|
    requires forall k :: 0 <= k < |results| ==> KeysOf(results[k]) == KeysOf(results[0])
    ensures var v := ResultsOf(Some(Shape(results)));
      && v.ResultTable?
      && |v.body[i]| == |v.header| == |results[i]|
      && v.header[j] == results[i][j].0
      && v.body[i][j] == FormatCell(results[i][j].1)
  {
    ShapeRoundTrip(results, i);
    var r := Shape(results);
    assert |results[i]| == |KeysOf(results[i])|;
    assert KeysOf(results[i])[j] == results[i][j].0;
  }

  datatype TableList =
    | TablesLoading
    | NoTables
    | TableButtons(tables: seq<(string, string)>)

  /** The query a table's button puts in the editor. */
  function PreviewQuery(table: string): string {
    "SELECT * FROM " + table + " LIMIT 10"
  }

  /** The table list: loading when no list was given, "No tables found"
      when it is empty, else one button per table, in order, each with its
      preview query. */
  function TableListOf(tables: Option<seq<string>>): (l: TableList)
    ensures l.TablesLoading? <==> tables.None?
    ensures l.NoTables? <==> tables == Some([])
    ensures l.TableButtons? ==>
      && |l.tables| == |tables.value|
      && forall i :: 0 <= i < |l.tables| ==> l.tables[i] == (tables.value[i], PreviewQuery(tables.value[i]))
  {
    if tables.None? then TablesLoading
    else if tables.value == [] then NoTables
    else TableButtons(seq(|tables.value|, i requires 0 <= i < |tables.value| =>
      (tables.value[i], PreviewQuery(tables.value[i]))))
  }

  datatype D1PageProps = D1PageProps(
    dbName: Option<string>,
    tables: Option<seq<string>>,
    queryResult: Option<QueryResult>,
    lastQuery: Option<string>)

  datatype QueryPanel = QueryPanel(tableCount: Option<nat>, tables: TableList, queryText: string, results: ResultsView)

  datatype D1PageView =
    | NoDatabases
    | DatabaseBrowser(names: seq<string>, selected: string, panel: Option<QueryPanel>)

  /** `D1Page`: the empty state when no binding is a D1 database; otherwise
      the chips, and, under a selected database, the table list, the editor
      pre-filled with the last query, and the results. */
  function D1PageOf(env: Env, props: D1PageProps): (view: D1PageView)
    ensures view.NoDatabases? <==> NamesOfKind(env, D1Database) == []
    ensures view.DatabaseBrowser? ==>
      && view.names == NamesOfKind(env, D1Database)
      && Some(view.selected) == Select(view.names, props.dbName)
      && (view.panel.Some? <==> view.selected != "")
    ensures view.DatabaseBrowser? && view.panel.Some? ==>
      var p := view.panel.value;
      && (p.tableCount.Some? <==> props.tables.Some?)
      && (p.tableCount.Some? ==> p.tableCount.value == |props.tables.value|)
      && p.tables == TableListOf(props.tables)
      && p.queryText == props.lastQuery.GetOr("")
      && p.results == ResultsOf(props.queryResult)
  {
    var names := NamesOfKind(env, D1Database);
    if names == [] then NoDatabases
    else
      var selected := Select(names, props.dbName).value;
      DatabaseBrowser(names, selected,
        if selected == "" then None
        else Some(QueryPanel(
          if props.tables.Some? then Some(|props.tables.value|) else None,
          TableListOf(props.tables),
          props.lastQuery.GetOr(""),
          ResultsOf(props.queryResult))))
  }
}
