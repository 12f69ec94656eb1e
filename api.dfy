/**
 * The REST routes of the API blueprint: paginated access to the public tables, the
 * isochrone collection and the dynamic maps. Each route is its `handle_exception`
 * decorator applied to the route body; the store, the geometry decoder and the map
 * renderer are oracles.
 */
module Api {
  import opened Wrappers
  import opened Errors
  import opened Json
  import PyText
  import Config
  import DataUtils

  // ---------------------------------------------------------------------------
  // /data/<table_name>

  /** `request.args.get(name, default=d, type=int)`: a missing or unconvertible value gives the default. */
  function ArgInt(raw: Option<string>, default: int): (v: int)
    ensures raw.None? ==> v == default
  {
    if raw.None? then default
    else match PyText.ParseInt(PyText.Strip(raw.value))
      case Some(n) => n
      case None => default
  }

  /** A page number written out is read back. */
  lemma {:induction false} ArgIntReads(n: int, default: int)
    ensures ArgInt(Some(PyText.IntToString(n)), default) == n
  {
    PyText.NumeralToken(n);
  }

  /** The rows `.range(start, end)` asks the store for, both ends inclusive. */
  function Window(page: int, pageSize: int): (w: (int, int)) {
    ((page - 1) * pageSize, page * pageSize - 1)
  }

  /**
   * A window holds exactly `pageSize` rows, consecutive pages meet without overlap, and
   * the first page starts at row 0.
   */
  lemma {:induction false} WindowTiles(page: int, pageSize: int)
    requires pageSize >= 1
    ensures Window(page, pageSize).1 - Window(page, pageSize).0 + 1 == pageSize
    ensures Window(page + 1, pageSize).0 == Window(page, pageSize).1 + 1
    ensures page >= 1 ==> Window(page, pageSize).0 >= 0
    ensures Window(1, pageSize).0 == 0
  {
    assert page * pageSize - (page - 1) * pageSize == pageSize;
    assert (page + 1 - 1) * pageSize == page * pageSize;
    if page >= 1 {
      assert (page - 1) * pageSize >= 0;
    }
  }

  /** Without arguments the first hundred rows are asked for. */
  lemma {:induction false} DefaultWindow()
    ensures Window(ArgInt(None, 1), ArgInt(None, 100)) == (0, 99)
  {
  }

  /** The store's reply to a ranged select: its rows, or `None` when the response has no `data`. */
  type Query = (string, int, int) -> Result<Option<seq<Json>>, Exc>

  /** `{"data": rows, "count": len(rows)}`. */
  function DataBody(rows: seq<Json>): Json {
    JObj(map["data" := JArr(rows), "count" := JNum(|rows|)])
  }

  const DataMapping := map[ValueError := DataValidationError, Exception := DataAccessError]

  /** The body of `get_data(table_name)` before its decorator. */
  function GetDataBody(client: bool, allowed: seq<string>, table: string, pageArg: Option<string>, sizeArg: Option<string>,
                       query: Query): Result<Json, Exc>
  {
    if !client then Failure(Exc(ConfigError, "Supabase client not configured"))
    else if table !in allowed then Failure(Exc(ResourceNotFoundError, "Table '" + table + "' not found or not accessible"))
    else
      var (start, end) := Window(ArgInt(pageArg, 1), ArgInt(sizeArg, 100));
      var reply :- ExceptionContext("Querying data from " + table, APIError, query(table, start, end));
      var rows := reply.GetOr([]);
      if rows == [] then Success(JObj(map["data" := JArr([]), "count" := JNum(0)]))
      else Success(DataBody(rows))
  }

  /** `GET /data/<table_name>`. */
  function GetData(client: bool, allowed: seq<string>, table: string, pageArg: Option<string>, sizeArg: Option<string>,
                   query: Query): (r: Result<Json, Exc>)
    ensures !client ==> r == Failure(Exc(ConfigError, "Supabase client not configured"))
    ensures client && table !in allowed ==>
              r == Failure(Exc(ResourceNotFoundError, "Table '" + table + "' not found or not accessible"))
    ensures client && table in allowed ==>
              var w := Window(ArgInt(pageArg, 1), ArgInt(sizeArg, 100));
              match query(table, w.0, w.1)
              case Success(reply) => r == Success(DataBody(reply.GetOr([])))
              case Failure(e) =>
                r == Failure(if IsAppError(e.cls) then e
                             else Exc(APIError, ContextMessage("Querying data from " + table, e.msg)))
    ensures r.Failure? ==> IsAppError(r.error.cls)
  {
    HandleException(GetDataBody(client, allowed, table, pageArg, sizeArg, query), DataMapping)
  }

  /** The count is the number of rows returned, and an empty page is `{"data": [], "count": 0}`. */
  lemma {:induction false} DataCount(rows: seq<Json>)
    ensures DataBody(rows).fields["count"] == JNum(|rows|)
    ensures DataBody(rows).fields["data"] == JArr(rows)
    ensures rows == [] ==> DataBody(rows) == JObj(map["data" := JArr([]), "count" := JNum(0)])
  {
  }

  /**
   * The allow-list holds table names, not configuration keys: with the shipped tables
   * "city_centers" is served while "centers" is not found.
   */
  lemma {:induction false} ShippedAllowList(query: Query, pageArg: Option<string>, sizeArg: Option<string>)
    ensures var allowed := Config.PublicApiTables(Config.Tables);
            GetData(true, allowed, "centers", pageArg, sizeArg, query) ==
              Failure(Exc(ResourceNotFoundError, "Table '" + "centers" + "' not found or not accessible")) &&
            (forall t :: t in allowed <==> t in {"city_centers", "locations", "isochrones", "health_check"})
  {
    Config.ShippedPublicTables();
    assert "centers" != "city_centers" && "centers" != "locations" && "centers" != "isochrones" && "centers" != "health_check";
  }

  // ---------------------------------------------------------------------------
  // /isochrones

  const IsochronesMapping := map[Exception := DataAccessError]

  /** The body of `get_isochrones()` before its decorator. */
  function GetIsochronesBody(client: bool, tablesConfig: Json, select: DataUtils.Select, wkb: Json -> Result<Json, Exc>)
    : Result<Json, Exc>
  {
    if !client then Failure(Exc(ConfigError, "Supabase client not configured"))
    else if !Truthy(tablesConfig) then Failure(Exc(ConfigError, "Tables configuration not found"))
    else ExceptionContext("Loading isochrones from database", APIError, DataUtils.LoadIsochronesSpec(select, tablesConfig, wkb))
  }

  /**
   * `GET /isochrones`: the client and a non-empty tables configuration are required;
   * the outcome is then exactly that of `load_isochrones`, whose errors are all
   * application errors and pass both the context and the decorator unchanged.
   */
  function GetIsochrones(client: bool, tablesConfig: Json, select: DataUtils.Select, wkb: Json -> Result<Json, Exc>)
    : (r: Result<Json, Exc>)
    ensures !client ==> r == Failure(Exc(ConfigError, "Supabase client not configured"))
    ensures client && !Truthy(tablesConfig) ==> r == Failure(Exc(ConfigError, "Tables configuration not found"))
    ensures client && Truthy(tablesConfig) ==> r == DataUtils.LoadIsochronesSpec(select, tablesConfig, wkb)
  {
    DataUtils.LoadIsochronesRaisesAppErrors(select, tablesConfig, wkb);
    HandleException(GetIsochronesBody(client, tablesConfig, select, wkb), IsochronesMapping)
  }

  /** With the application's initial `TABLES` setting (`None`) the route always reports a missing configuration. */
  lemma {:induction false} IsochronesUnconfigured(select: DataUtils.Select, wkb: Json -> Result<Json, Exc>)
    ensures GetIsochrones(true, JNull, select, wkb) == Failure(Exc(ConfigError, "Tables configuration not found"))
  {
  }

  // ---------------------------------------------------------------------------
  // /maps/<table_key>

  const MapMapping := map[Exception := DataAccessError]

  /** The body of `get_map(table_key)` before its decorator; `render(include_locations)` stands for the map's HTML. */
  function GetMapBody(key: string, render: bool -> Result<string, Exc>): Result<string, Exc> {
    if !Config.Mappable(key) then Failure(Exc(ResourceNotFoundError, "Map for '" + key + "' not available"))
    else render(key == "locations")
  }

  /** `GET /maps/<table_key>`: only mappable tables; the locations map includes the locations. */
  function GetMap(key: string, render: bool -> Result<string, Exc>): (r: Result<string, Exc>)
    ensures !Config.Mappable(key) ==> r == Failure(Exc(ResourceNotFoundError, "Map for '" + key + "' not available"))
    ensures Config.Mappable(key) && render(key == "locations").Success? ==> r == render(key == "locations")
    ensures r.Failure? ==> IsAppError(r.error.cls)
  {
    HandleException(GetMapBody(key, render), MapMapping)
  }

  /** With the shipped tables only "centers" and "locations" have maps, and only the latter shows the locations. */
  lemma {:induction false} ShippedMaps(render: bool -> Result<string, Exc>)
    ensures GetMap("isochrones", render) == Failure(Exc(ResourceNotFoundError, "Map for '" + "isochrones" + "' not available"))
    ensures render(false).Success? ==> GetMap("centers", render) == render(false)
    ensures render(true).Success? ==> GetMap("locations", render) == render(true)
  {
    Config.ShippedFlags("isochrones");
    Config.ShippedFlags("centers");
    Config.ShippedFlags("locations");
  }
}
