/** The D1 request handlers: listing a database's tables, and running a
    user query and shaping its result for display. The catalog query's
    answer and the statement runner are given as parameters; an `Err`
    stands for a call that throws. SQL itself is not modelled. */
module D1Routes {
  import opened Wrappers
  import opened Types
  import opened Bindings
  import opened KvRoutes

  /** A value in a result row. `Object` keeps its JSON text. */
  datatype Cell = NullCell | TextCell(text: string) | ObjectCell(json: string)

  /** A result row as an object: its entries in key order. */
  type Row = seq<(string, Cell)>

  /** `Object.keys(row)` */
  function KeysOf(row: Row): (keys: seq<string>)
    ensures |keys| == |row|
    ensures forall j :: 0 <= j < |row| ==> keys[j] == row[j].0
  {
    seq(|row|, j requires 0 <= j < |row| => row[j].0)
  }

  /** `Object.values(row)` */
  function ValuesOf(row: Row): (values: seq<Cell>)
    ensures |values| == |row|
    ensures forall j :: 0 <= j < |row| ==> values[j] == row[j].1
  {
    seq(|row|, j requires 0 <= j < |row| => row[j].1)
  }

  datatype QueryResult = QueryResult(columns: seq<string>, rows: seq<seq<Cell>>, error: Option<string>)

  datatype D1View = D1View(dbName: string, tables: seq<string>, queryResult: Option<QueryResult>)

  const TablesQuery: string :=
    "SELECT name FROM sqlite_master WHERE type='table' AND name NOT LIKE 'sqlite_%' ORDER BY name"

  /** The shape the page displays: columns from the first row's keys (none
      when there are no rows) and one value list per row, in order. */
  function Shape(results: seq<Row>): (r: QueryResult)
    ensures r.error.None?
    ensures |r.rows| == |results|
    ensures |results| == 0 ==> r.columns == []
    ensures |results| > 0 ==> |r.columns| == |results[0]| && r.columns == KeysOf(results[0])
    ensures forall i :: 0 <= i < |results| ==> r.rows[i] == ValuesOf(results[i])
  {
    QueryResult(
      if |results| > 0 then KeysOf(results[0]) else [],
      seq(|results|, i requires 0 <= i < |results| => ValuesOf(results[i])),
      None)
  }

  /** When every row has the first row's keys, as a SQL result does, the
      shaped result loses nothing: pairing the columns with row i gives
      back result i. */
  lemma ShapeRoundTrip(results: seq<Row>, i: nat)
    requires i < |results|
    requires forall k :: 0 <= k < |results| ==> KeysOf(results[k]) == KeysOf(results[0])
    ensures var r := Shape(results);
      |r.rows[i]| == |r.columns|
      && seq(|r.columns|, j requires 0 <= j < |r.columns| => (r.columns[j], r.rows[i][j])) == results[i]
  {
    var r := Shape(results);
    assert |results[i]| == |KeysOf(results[i])| == |results[0]|;
  }

  /** GET /d1/:dbName: the catalog's table names, or none when the
      database is missing or the catalog query throws. */
  method LoadTables(env: Env, dbName: string, catalog: Result<seq<string>, string>)
    returns (view: D1View)
    ensures view.dbName == dbName && view.queryResult.None?
    ensures HasNamedOfKind(env, dbName, D1Database) && catalog.Ok? ==> view.tables == catalog.value
    ensures !(HasNamedOfKind(env, dbName, D1Database) && catalog.Ok?) ==> view.tables == []
  {
    var tables: seq<string> := [];
    if HasNamedOfKind(env, dbName, D1Database) && catalog.Ok? {
      tables := catalog.value;
    }
    view := D1View(dbName, tables, None);
  }

  /** POST /d1/:dbName/query. The table list comes first; a throwing
      catalog query abandons the request with no tables and no result. The
      user query runs only when it is non-empty; its failure becomes a
      result carrying only the message. */
  method RunQuery(env: Env, dbName: string, query: Option<string>,
                  catalog: Result<seq<string>, string>, execute: string -> Result<seq<Row>, string>)
    returns (view: D1View)
    ensures view.dbName == dbName
    ensures HasNamedOfKind(env, dbName, D1Database) && catalog.Ok? ==> view.tables == catalog.value
    ensures !(HasNamedOfKind(env, dbName, D1Database) && catalog.Ok?) ==> view.tables == []
    ensures view.queryResult.Some? <==>
      HasNamedOfKind(env, dbName, D1Database) && catalog.Ok? && query.Some? && query.value != ""
    ensures view.queryResult.Some? && execute(query.value).Err? ==>
      view.queryResult.value == QueryResult([], [], Some(execute(query.value).error))
    ensures view.queryResult.Some? && execute(query.value).Ok? ==>
      var results := execute(query.value).value;
      var r := view.queryResult.value;
      && r.error.None?
      && |r.rows| == |results|
      && (if |results| == 0 then r.columns == [] else r.columns == KeysOf(results[0]))
      && forall i :: 0 <= i < |results| ==> r.rows[i] == ValuesOf(results[i])
  {
    var tables: seq<string> := [];
    var queryResult: Option<QueryResult> := None;
    if HasNamedOfKind(env, dbName, D1Database) && catalog.Ok? {
      tables := catalog.value;
      if query.Some? && query.value != "" {
        var outcome := execute(query.value);
        match outcome
        case Ok(results) => queryResult := Some(Shape(results));
        case Err(message) => queryResult := Some(QueryResult([], [], Some(message)));
      }
    }
    view := D1View(dbName, tables, queryResult);
  }
}
