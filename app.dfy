/**
 * The Flask application: its global error handler, which turns every exception into a
 * JSON body and a status code, the dynamic map route and the isochrone route. A route
 * is a function from its request arguments (and oracles for the environment and the
 * services it calls) to a response or the exception it lets escape; `Respond` is what
 * the client then receives.
 */
module App {
  import opened Wrappers
  import opened Errors
  import opened Json
  import PyText
  import Config
  import GeoJson
  import Api

  datatype Body = JsonBody(json: Json) | Html(html: string)
  datatype Response = Response(body: Body, status: int)

  /** `{"error": error, "message": message}`. */
  function ErrorBody(error: string, message: string): Json {
    JObj(map["error" := JStr(error), "message" := JStr(message)])
  }

  /** The status an application error is reported with. */
  function AppStatus(c: ErrClass): int {
    if IsA(c, ResourceNotFoundError) then 404
    else if IsA(c, APIError) then 503
    else 400
  }

  /** `@app.errorhandler(Exception)`: application errors by class, anything else as an opaque server error. */
  function HandleError(e: Exc): (r: Response)
    ensures IsAppError(e.cls) ==> r == Response(JsonBody(ErrorBody(ClassName(e.cls), e.msg)), AppStatus(e.cls))
    ensures !IsAppError(e.cls) ==> r == Response(JsonBody(ErrorBody("ServerError", "An unexpected error occurred")), 500)
  {
    if IsAppError(e.cls) then Response(JsonBody(ErrorBody(ClassName(e.cls), e.msg)), AppStatus(e.cls))
    else Response(JsonBody(ErrorBody("ServerError", "An unexpected error occurred")), 500)
  }

  /** What the client receives for a route's outcome. */
  function Respond(r: Result<Response, Exc>): Response {
    match r
    case Success(resp) => resp
    case Failure(e) => HandleError(e)
  }

  /** A route that returns a JSON value answers 200 with it. */
  function Ok(r: Result<Json, Exc>): Result<Response, Exc> {
    match r
    case Success(j) => Success(Response(JsonBody(j), 200))
    case Failure(e) => Failure(e)
  }

  /** A route that returns HTML answers 200 with it. */
  function OkHtml(r: Result<string, Exc>): Result<Response, Exc> {
    match r
    case Success(h) => Success(Response(Html(h), 200))
    case Failure(e) => Failure(e)
  }

  /**
   * The status classification: 404 exactly for the not-found family, 503 exactly for the
   * API family, 400 for every other application error, 500 exactly for the rest; the
   * body names the class only for application errors.
   */
  lemma {:induction false} HandleErrorStatus(e: Exc)
    ensures HandleError(e).status == 404 <==> IsA(e.cls, ResourceNotFoundError)
    ensures HandleError(e).status == 503 <==> IsA(e.cls, APIError)
    ensures HandleError(e).status == 500 <==> !IsAppError(e.cls)
    ensures HandleError(e).status == 400 <==>
              IsAppError(e.cls) && !IsA(e.cls, ResourceNotFoundError) && !IsA(e.cls, APIError)
  {
    AppErrorFamily(e.cls);
    if IsA(e.cls, ResourceNotFoundError) {
      IsATransitive(e.cls, ResourceNotFoundError, AppError);
    }
    if IsA(e.cls, APIError) {
      IsATransitive(e.cls, APIError, AppError);
    }
  }

  /** The classes by status: a subclass is reported like its family. */
  lemma {:induction false} StatusOfClasses()
    ensures AppStatus(ResourceNotFoundError) == 404
    ensures AppStatus(APIError) == 503 && AppStatus(APIConnectionError) == 503 && AppStatus(APIResponseError) == 503
    ensures AppStatus(ResourceError) == 400 && AppStatus(GeoJSONError) == 400 && AppStatus(DataValidationError) == 400
    ensures AppStatus(ConfigError) == 400 && AppStatus(ConfigMissingError) == 400 && AppStatus(AppError) == 400
  {
    ApiStatuses();
    ResourceStatuses();
    OtherStatuses();
  }

  lemma {:induction false} ApiStatuses()
    ensures AppStatus(APIError) == 503 && AppStatus(APIConnectionError) == 503 && AppStatus(APIResponseError) == 503
  {
  }

  lemma {:induction false} ResourceStatuses()
    ensures AppStatus(ResourceNotFoundError) == 404 && AppStatus(ResourceError) == 400
    ensures AppStatus(GeoJSONError) == 400 && AppStatus(DataValidationError) == 400
  {
  }

  lemma {:induction false} OtherStatuses()
    ensures AppStatus(ConfigError) == 400 && AppStatus(ConfigMissingError) == 400 && AppStatus(AppError) == 400
  {
  }

  /** A route behind `handle_exception` with application targets never answers 500. */
  lemma {:induction false} DecoratedNever500(r: Result<Json, Exc>, mapping: map<ErrClass, ErrClass>)
    requires AppTargets(mapping)
    ensures Respond(Ok(HandleException(r, mapping))).status != 500
  {
    var out := HandleException(r, mapping);
    if out.Failure? {
      HandleErrorStatus(out.error);
    }
  }

  /** Hence the three API routes never answer 500, whatever the store, decoder or renderer do. */
  lemma {:induction false} ApiRoutesNever500(client: bool, allowed: seq<string>, table: string, pageArg: Option<string>, sizeArg: Option<string>,
                          query: Api.Query, tablesConfig: Json, select: Api.DataUtils.Select, wkb: Json -> Result<Json, Exc>)
    ensures Respond(Ok(Api.GetData(client, allowed, table, pageArg, sizeArg, query))).status != 500
    ensures Respond(Ok(Api.GetIsochrones(client, tablesConfig, select, wkb))).status != 500
  {
    DecoratedNever500(Api.GetDataBody(client, allowed, table, pageArg, sizeArg, query), Api.DataMapping);
    DecoratedNever500(Api.GetIsochronesBody(client, tablesConfig, select, wkb), Api.IsochronesMapping);
  }

  // ---------------------------------------------------------------------------
  // /dynamic_maps/<table_key>

  /**
   * `dynamic_map(table_key)`: a table without a map is answered directly with 404;
   * `render(include_locations, include_all_tiles)` stands for the generated map's HTML.
   */
  function DynamicMap(key: string, render: (bool, bool) -> Result<string, Exc>): (r: Result<Response, Exc>)
    ensures !Config.Mappable(key) ==>
              r == Success(Response(JsonBody(ErrorBody("ResourceNotFound", "Map for '" + key + "' not available")), 404))
    ensures Config.Mappable(key) ==>
              match render(key == "locations", key == "locations")
              case Success(html) => r == Success(Response(Html(html), 200))
              case Failure(e) => r == Failure(e)
  {
    if !Config.Mappable(key) then
      Success(Response(JsonBody(ErrorBody("ResourceNotFound", "Map for '" + key + "' not available")), 404))
    else
      var html :- render(key == "locations", key == "locations");
      Success(Response(Html(html), 200))
  }

  /**
   * The two map routes agree on which tables have maps and on the status, but not on the
   * body: the application route names the error "ResourceNotFound", the API route
   * "ResourceNotFoundError".
   */
  lemma {:induction false} MapRoutesAgree(key: string, render: (bool, bool) -> Result<string, Exc>, apiRender: bool -> Result<string, Exc>)
    requires !Config.Mappable(key)
    ensures Respond(DynamicMap(key, render)).status == 404
    ensures Respond(OkHtml(Api.GetMap(key, apiRender))).status == 404
    ensures Respond(DynamicMap(key, render)).body.json.fields["error"] == JStr("ResourceNotFound")
    ensures Respond(OkHtml(Api.GetMap(key, apiRender))).body.json.fields["error"] == JStr("ResourceNotFoundError")
  {
  }

  /** Only the locations map shows the locations and offers every tile layer. */
  lemma {:induction false} DynamicMapFlags(render: (bool, bool) -> Result<string, Exc>)
    ensures render(true, true).Success? ==> DynamicMap("locations", render) == Success(Response(Html(render(true, true).value), 200))
    ensures render(false, false).Success? ==> DynamicMap("centers", render) == Success(Response(Html(render(false, false).value), 200))
    ensures DynamicMap("health_check", render).Success? && DynamicMap("health_check", render).value.status == 404
  {
    Config.ShippedFlags("locations");
    Config.ShippedFlags("centers");
    Config.ShippedFlags("health_check");
  }

  // ---------------------------------------------------------------------------
  // /generate_isochrone

  /** The service endpoint the route posts to; `Url` is its address. */
  datatype Endpoint = DrivingCarIsochrones

  function Url(e: Endpoint): string {
    "https://api.openrouteservice.org/v2/isochrones/driving-car"
  }

  /** The reply of the routing service: its JSON body, or the decoding error `response.json()` raises. */
  datatype OrsReply = Parsed(json: Json) | NotJson(msg: string)

  /** The routing service: `requests.post(Url(endpoint), json=params, headers={"Authorization": key})` and `raise_for_status()`. */
  type Post = (Endpoint, string, Json) -> Result<OrsReply, Exc>

  /** A non-empty query argument. */
  predicate Present(arg: Option<string>) {
    arg.Some? && arg.value != ""
  }

  /** `float(s)`, with the parse as an oracle. */
  function Float(s: string, toFloat: string -> Option<Json>): (r: Result<Json, Exc>)
    ensures toFloat(s).None? <==> r.Failure?
    ensures r.Failure? ==> r.error.cls == ValueError
  {
    match toFloat(s)
    case Some(x) => Success(x)
    case None => Failure(Exc(ValueError, "could not convert string to float: " + KeyRepr(s)))
  }

  /** `int(s)`. */
  function Int(s: string): (r: Result<int, Exc>)
    ensures r.Failure? ==> r.error.cls == ValueError
  {
    match PyText.ParseInt(PyText.Strip(s))
    case Some(n) => Success(n)
    case None => Failure(Exc(ValueError, "invalid literal for int() with base 10: " + KeyRepr(s)))
  }

  /** `int(str(n)) == n`. */
  lemma {:induction false} IntReads(n: int)
    ensures Int(PyText.IntToString(n)) == Success(n)
  {
    PyText.NumeralToken(n);
  }

  /** The request parameters: one location `[lng, lat]`, one range, smoothing 25. */
  function Params(lng: Json, lat: Json, time: int): Json {
    JObj(map["locations" := JArr([JArr([lng, lat])]), "range" := JArr([JNum(time)]), "smoothing" := JNum(25)])
  }

  /** The block guarded by the "OpenRouteService API call" context. */
  function CallService(lat: string, lng: string, time: string, key: string, toFloat: string -> Option<Json>, post: Post)
    : Result<OrsReply, Exc>
  {
    var x :- Float(lng, toFloat);
    var y :- Float(lat, toFloat);
    var t :- Int(time);
    post(DrivingCarIsochrones, key, Params(x, y, t))
  }

  /** The block guarded by the "GeoJSON validation" context. */
  function CheckReply(reply: OrsReply, parse: string -> Result<Json, string>): Result<Json, Exc> {
    match reply
    case NotJson(msg) => Failure(Exc(JSONDecodeError, msg))
    case Parsed(data) =>
      var _ :- GeoJson.ValidateGeoJson(data, parse);
      Success(data)
  }

  /** `GET /generate_isochrone?lat=..&lng=..&time=..` with the API key from the environment. */
  function GenerateIsochrone(lat: Option<string>, lng: Option<string>, time: Option<string>, apiKey: Option<string>,
                             toFloat: string -> Option<Json>, post: Post, parse: string -> Result<Json, string>)
    : (r: Result<Response, Exc>)
    ensures !Present(lat) || !Present(lng) ==>
              r == Success(Response(JsonBody(JObj(map["error" := JStr("Missing required parameters")])), 400))
    ensures Present(lat) && Present(lng) && !Present(apiKey) ==> r == Failure(Exc(ConfigError, "API key not found"))
    ensures r.Failure? ==> IsAppError(r.error.cls)
  {
    if !Present(lat) || !Present(lng) then
      Success(Response(JsonBody(JObj(map["error" := JStr("Missing required parameters")])), 400))
    else if !Present(apiKey) then
      Failure(Exc(ConfigError, "API key not found"))
    else
      var reply :- ExceptionContext("OpenRouteService API call", APIError,
                     CallService(lat.value, lng.value, time.GetOr("1800"), apiKey.value, toFloat, post));
      var data :- ExceptionContext("GeoJSON validation", GeoJSONError, CheckReply(reply, parse));
      Success(Response(JsonBody(data), 200))
  }

  /**
   * A successful request with both coordinates answers 200 with the service's reply for the
   * parsed coordinates and time, a reply that parsed as JSON and passed validation.
   */
  lemma {:induction false} GenerateIsochroneSucceeds(lat: string, lng: string, time: Option<string>, apiKey: Option<string>,
                                     toFloat: string -> Option<Json>, post: Post, parse: string -> Result<Json, string>)
    requires lat != "" && lng != ""
    ensures var r := GenerateIsochrone(Some(lat), Some(lng), time, apiKey, toFloat, post, parse);
            r.Success? ==>
              r.value.status == 200 && r.value.body.JsonBody? &&
              apiKey.Some? && toFloat(lng).Some? && toFloat(lat).Some? && Int(time.GetOr("1800")).Success? &&
              post(DrivingCarIsochrones, apiKey.value, Params(toFloat(lng).value, toFloat(lat).value, Int(time.GetOr("1800")).value))
                == Success(Parsed(r.value.body.json)) &&
              GeoJson.ValidateGeoJson(r.value.body.json, parse).Success?
  {
    var r := GenerateIsochrone(Some(lat), Some(lng), time, apiKey, toFloat, post, parse);
    if r.Success? {
      var call := CallService(lat, lng, time.GetOr("1800"), apiKey.value, toFloat, post);
      assert call.Success?;
      assert CheckReply(call.value, parse).Success?;
    }
  }

  /** Missing coordinates are rejected before the API key is looked at. */
  lemma {:induction false} MissingCoordinatesFirst(lat: Option<string>, lng: Option<string>, time: Option<string>, key1: Option<string>,
                                key2: Option<string>, toFloat: string -> Option<Json>, post: Post, parse: string -> Result<Json, string>)
    requires !Present(lat) || !Present(lng)
    ensures Respond(GenerateIsochrone(lat, lng, time, key1, toFloat, post, parse)) ==
            Respond(GenerateIsochrone(lat, lng, time, key2, toFloat, post, parse))
    ensures Respond(GenerateIsochrone(lat, lng, time, key1, toFloat, post, parse)).status == 400
  {
  }

  /** A missing API key is reported as a configuration error with status 400. */
  lemma {:induction false} MissingKey(lat: string, lng: string, time: Option<string>, toFloat: string -> Option<Json>, post: Post,
                   parse: string -> Result<Json, string>)
    requires lat != "" && lng != ""
    ensures Respond(GenerateIsochrone(Some(lat), Some(lng), time, None, toFloat, post, parse)) ==
            Response(JsonBody(ErrorBody("ConfigError", "API key not found")), 400)
  {
  }

  /**
   * A coordinate or time that does not parse fails inside the service context, so it is
   * answered 503 as a service error rather than 400 as a bad request.
   */
  lemma {:induction false} BadTimeIsServiceError(lat: string, lng: string, time: string, key: string, toFloat: string -> Option<Json>,
                              post: Post, parse: string -> Result<Json, string>)
    requires lat != "" && lng != "" && key != ""
    requires toFloat(lat).Some? && toFloat(lng).Some? && Int(time).Failure?
    ensures Respond(GenerateIsochrone(Some(lat), Some(lng), Some(time), Some(key), toFloat, post, parse)) ==
            Response(JsonBody(ErrorBody("APIError", ContextMessage("OpenRouteService API call", Int(time).error.msg))), 503)
  {
    BadTimeRaises(lat, lng, time, key, toFloat, post, parse);
    ApiStatuses();
  }

  /** The failed parse surfaces as the service context's `APIError`. */
  lemma {:induction false} BadTimeRaises(lat: string, lng: string, time: string, key: string, toFloat: string -> Option<Json>,
                                         post: Post, parse: string -> Result<Json, string>)
    requires lat != "" && lng != "" && key != ""
    requires toFloat(lat).Some? && toFloat(lng).Some? && Int(time).Failure?
    ensures GenerateIsochrone(Some(lat), Some(lng), Some(time), Some(key), toFloat, post, parse) ==
            Failure(Exc(APIError, ContextMessage("OpenRouteService API call", Int(time).error.msg)))
  {
    assert CallService(lat, lng, time, key, toFloat, post) == Failure(Int(time).error);
  }

  /** Without a time argument the request asks for 1800 seconds. */
  lemma {:induction false} DefaultTime()
    ensures Int("1800") == Success(1800)
  {
    IntReads(1800);
    Numeral1800();
  }

  lemma {:induction false} Numeral1800()
    ensures PyText.IntToString(1800) == "1800"
  {
    Numeral18();
    assert PyText.NatToString(180) == PyText.NatToString(18) + [PyText.DigitChar(0)];
    assert PyText.NatToString(1800) == PyText.NatToString(180) + [PyText.DigitChar(0)];
  }

  lemma {:induction false} Numeral18()
    ensures PyText.NatToString(18) == "18"
  {
    assert PyText.NatToString(1) == "1";
    assert PyText.NatToString(18) == PyText.NatToString(1) + [PyText.DigitChar(8)];
  }
}
