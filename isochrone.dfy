/**
 * The isochrone pipeline without its thread pool: extract centre coordinates, ask the
 * routing service for the one-hour and half-hour drive-time polygons of each centre,
 * collect the answers by centre name, and either write them to files or reconcile them
 * with the isochrones table of the store.
 *
 * The routing service, the file system and the store's responses are oracles given as
 * parameters; the store's isochrone rows are the state of `IsochroneStore`.
 */
module Isochrone {
  import opened Wrappers
  import opened Errors
  import opened Json
  import PyText
  import Frames

  type Cell = Frames.Cell
  type Row = Frames.Row
  type Table = Frames.Table

  /** The centres table; its columns are `city`, `state`, `zip_code`, `latitude`, `longitude`. */
  const CentersTable := "city_centers"

  // ---------------------------------------------------------------------------
  // Loading the centres

  /** A centre's position in the `[longitude, latitude]` order the routing service expects. */
  datatype Coord = Coord(lon: Cell, lat: Cell)

  /** Where `load_center_data` reads from: the locations directory, or the store. */
  datatype CenterSource =
    | LocalFiles(locations: string, isFile: string -> bool, read: string -> Result<Table, Exc>)
      /** `clientReady` is the truthiness of the client; `load` is what `load_data` returns or raises. */
    | StoreTable(clientReady: bool, load: Result<Table, Exc>)

  /** The mapping of `load_center_data`'s decorator. */
  const LoadCentersMapping: map<ErrClass, ErrClass> := map[ValueError := DataValidationError, Exception := DataProcessingError]

  /** The geocoded file when it exists, else the original one. */
  function CenterFile(locations: string, isFile: string -> bool): string {
    var geocoded := locations + "/geocoded_" + CentersTable + ".csv";
    if isFile(geocoded) then geocoded else locations + "/" + CentersTable + ".csv"
  }

  /** The loaded table, or what loading it raised. */
  function CenterTable(src: CenterSource): Result<Table, Exc> {
    match src
    case LocalFiles(dir, isFile, read) =>
      var path := CenterFile(dir, isFile);
      (match read(path)
       case Success(t) => Success(t)
       case Failure(e) =>
         if e.cls == FileNotFoundError then Failure(Exc(DataAccessError, "Center data file not found: " + path))
         else Failure(e))
    case StoreTable(ready, load) =>
      if !ready then Failure(Exc(DataAccessError, "Supabase client is required for use-db mode")) else load
  }

  /** A row whose city, latitude and longitude can be read. */
  predicate HasCoordColumns(row: Row) {
    "city" in row && "latitude" in row && "longitude" in row
  }

  /** One centre's coordinates, or what reading them raises (a missing column is a `KeyError`). */
  function CenterCoord(row: Row): Result<Coord, Exc> {
    if "city" !in row then Failure(Exc(KeyError, KeyRepr("city")))
    else if "latitude" !in row then Failure(Exc(KeyError, KeyRepr("latitude")))
    else if "longitude" !in row then Failure(Exc(KeyError, KeyRepr("longitude")))
    else if Frames.IsNa(row["latitude"]) || Frames.IsNa(row["longitude"]) then
      Failure(Exc(DataValidationError, "Center '" + Frames.Str(row["city"]) + "' has missing coordinates"))
    else Success(Coord(row["longitude"], row["latitude"]))
  }

  /** The coordinates of `rows` in row order, or the failure of the first row that has none. */
  function CenterCoords(rows: seq<Row>): Result<seq<Coord>, Exc> {
    if rows == [] then Success([])
    else
      match CenterCoords(rows[..|rows| - 1])
      case Failure(e) => Failure(e)
      case Success(cs) =>
        match CenterCoord(rows[|rows| - 1])
        case Failure(e) => Failure(e)
        case Success(c) => Success(cs + [c])
  }

  /** `load_center_data` before its decorator. */
  function LoadCentersRaw(src: CenterSource): Result<(Table, seq<Coord>), Exc> {
    var t :- CenterTable(src);
    if Frames.Empty(t) then Failure(Exc(DataValidationError, "Center data is empty"))
    else
      var cs :- CenterCoords(t.rows);
      Success((t, cs))
  }

  /**
   * The coordinates are exactly one `[longitude, latitude]` per row, in row order, when
   * every row has both; otherwise the failure is the first row's that has not.
   */
  lemma {:induction false} CenterCoordsSpec(rows: seq<Row>)
    ensures CenterCoords(rows).Success? <==> forall i :: 0 <= i < |rows| ==> CenterCoord(rows[i]).Success?
    ensures CenterCoords(rows).Success? ==>
              |CenterCoords(rows).value| == |rows| &&
              forall i :: 0 <= i < |rows| ==> CenterCoords(rows).value[i] == Coord(rows[i]["longitude"], rows[i]["latitude"])
    ensures CenterCoords(rows).Failure? ==>
              exists k :: 0 <= k < |rows| && CenterCoord(rows[k]) == Failure(CenterCoords(rows).error) &&
                          forall i :: 0 <= i < k ==> CenterCoord(rows[i]).Success?
  {
    if rows != [] {
      var n := |rows| - 1;
      var init := rows[..n];
      CenterCoordsSpec(init);
      assert forall i :: 0 <= i < n ==> init[i] == rows[i];
      if CenterCoords(init).Failure? {
        var k :| 0 <= k < |init| && CenterCoord(init[k]) == Failure(CenterCoords(init).error) &&
                 forall i :: 0 <= i < k ==> CenterCoord(init[i]).Success?;
        assert CenterCoord(rows[k]) == Failure(CenterCoords(rows).error);
      } else if CenterCoord(rows[n]).Failure? {
        assert CenterCoord(rows[n]) == Failure(CenterCoords(rows).error);
      }
    }
  }

  /** Once a prefix of the rows fails, the whole table fails the same way. */
  lemma {:induction false} CenterCoordsPrefixFailure(rows: seq<Row>, k: nat)
    requires k <= |rows| && CenterCoords(rows[..k]).Failure?
    ensures CenterCoords(rows) == CenterCoords(rows[..k])
    decreases |rows|
  {
    if k < |rows| {
      var n := |rows| - 1;
      assert rows[..n][..k] == rows[..k];
      CenterCoordsPrefixFailure(rows[..n], k);
    } else {
      assert rows[..k] == rows;
    }
  }

  /**
   * `load_center_data(store, mode)`: the table from the chosen source and one coordinate
   * pair per row; an empty table or a centre without coordinates raises
   * `DataValidationError`, and every failure leaves as an application error.
   */
  method LoadCenterData(src: CenterSource) returns (r: Result<(Table, seq<Coord>), Exc>)
    ensures r == HandleException(LoadCentersRaw(src), LoadCentersMapping)
    ensures r.Failure? ==> IsAppError(r.error.cls)
    ensures CenterTable(src).Success? && Frames.Empty(CenterTable(src).value) ==>
              r == Failure(Exc(DataValidationError, "Center data is empty"))
  {
    var loaded := CenterTable(src);
    if loaded.Failure? {
      r := HandleException(Failure(loaded.error), LoadCentersMapping);
      return;
    }
    var t := loaded.value;
    if Frames.Empty(t) {
      r := Failure(Exc(DataValidationError, "Center data is empty"));
      return;
    }
    var coords: seq<Coord> := [];
    var i := 0;
    while i < |t.rows|
      invariant 0 <= i <= |t.rows|
      invariant CenterCoords(t.rows[..i]) == Success(coords)
    {
      assert t.rows[..i + 1][..i] == t.rows[..i];
      var c := CenterCoord(t.rows[i]);
      if c.Failure? {
        CenterCoordsPrefixFailure(t.rows, i + 1);
        r := HandleException(Failure(c.error), LoadCentersMapping);
        return;
      }
      coords := coords + [c.value];
      i := i + 1;
    }
    assert t.rows[..i] == t.rows;
    r := Success((t, coords));
  }

  /** A loaded table yields one coordinate pair per row, both present, in row order. */
  lemma {:induction false} LoadedCoordinates(src: CenterSource)
    requires LoadCentersRaw(src).Success?
    ensures var (t, cs) := LoadCentersRaw(src).value;
            t == CenterTable(src).value && !Frames.Empty(t) && |cs| == |t.rows| &&
            forall i :: 0 <= i < |t.rows| ==>
              HasCoordColumns(t.rows[i]) && !Frames.IsNa(t.rows[i]["latitude"]) && !Frames.IsNa(t.rows[i]["longitude"]) &&
              cs[i] == Coord(t.rows[i]["longitude"], t.rows[i]["latitude"])
  {
    CenterCoordsSpec(CenterTable(src).value.rows);
  }

  /** A centre without a latitude or longitude makes the load fail with `DataValidationError`. */
  lemma {:induction false} MissingCoordinateFails(src: CenterSource, k: nat)
    requires CenterTable(src).Success? && !Frames.Empty(CenterTable(src).value)
    requires var rows := CenterTable(src).value.rows;
             k < |rows| && HasCoordColumns(rows[k]) &&
             (Frames.IsNa(rows[k]["latitude"]) || Frames.IsNa(rows[k]["longitude"])) &&
             forall i :: 0 <= i < |rows| ==> HasCoordColumns(rows[i])
    ensures var r := HandleException(LoadCentersRaw(src), LoadCentersMapping);
            r.Failure? && r.error.cls == DataValidationError
  {
    var rows := CenterTable(src).value.rows;
    CenterCoordsSpec(rows);
    assert CenterCoord(rows[k]).Failure?;
    var e := CenterCoords(rows).error;
    var j :| 0 <= j < |rows| && CenterCoord(rows[j]) == Failure(e) && forall i :: 0 <= i < j ==> CenterCoord(rows[i]).Success?;
    assert HasCoordColumns(rows[j]);
  }

  // ---------------------------------------------------------------------------
  // Asking the routing service

  /** The request `generate_isochrone` sends. */
  datatype IsoRequest = IsoRequest(locations: seq<Coord>, profile: string, range: seq<nat>, rangeType: string, smoothing: nat)

  /** The routing service: the GeoJSON it answers with, or what the call raises. */
  type Ors = IsoRequest -> Result<Json, Exc>

  /** The pause after every call, in seconds. */
  const Pause: real := 1.5

  /** One location, driving by car, one hour and half an hour of travel time, smoothing 25. */
  function IsochroneRequest(c: Coord): IsoRequest {
    IsoRequest([c], "driving-car", [3600, 1800], "time", 25)
  }

  /** What one call of `generate_isochrone` returns or raises, and the pauses it takes. */
  datatype Generated = Generated(outcome: Result<(Cell, Json), Exc>, pauses: seq<real>)

  /**
   * `generate_isochrone(client, lon, lat, name)`: `(name, answer)` on success; a failure
   * from outside the application becomes `APIConnectionError` naming the call; the
   * pause runs once whatever happens.
   */
  function GenerateIsochrone(ors: Ors, c: Coord, name: Cell): (g: Generated)
    ensures g.pauses == [Pause]
    ensures g.outcome.Success? <==> ors(IsochroneRequest(c)).Success?
    ensures g.outcome.Success? ==> g.outcome.value == (name, ors(IsochroneRequest(c)).value)
    ensures g.outcome.Failure? ==> IsAppError(g.outcome.error.cls)
    ensures ors(IsochroneRequest(c)).Failure? && !IsAppError(ors(IsochroneRequest(c)).error.cls) ==>
              g.outcome == Failure(Exc(APIConnectionError, ContextMessage("OpenRouteService API call", ors(IsochroneRequest(c)).error.msg)))
  {
    var answer := ExceptionContext("OpenRouteService API call", APIConnectionError, ors(IsochroneRequest(c)));
    var outcome := match answer
      case Success(j) => Success((name, j))
      case Failure(e) => Failure(e);
    Generated(HandleException(outcome, map[Exception := APIConnectionError]), [Pause])
  }

  /** The request carries exactly the centre, in `[longitude, latitude]` order, and the fixed settings. */
  lemma {:induction false} RequestShape(c: Coord)
    ensures var q := IsochroneRequest(c);
            |q.locations| == 1 && q.locations[0].lon == c.lon && q.locations[0].lat == c.lat &&
            q.profile == "driving-car" && q.rangeType == "time" && q.smoothing == 25 &&
            q.range == [60 * 60, 30 * 60]
  {
  }

  // ---------------------------------------------------------------------------
  // Collecting the answers

  /** A Python dict in insertion order. */
  type Dict = seq<(Cell, Json)>

  function Keys(d: Dict): (ks: seq<Cell>)
    ensures |ks| == |d| && forall i :: 0 <= i < |d| ==> ks[i] == d[i].0
  {
    seq(|d|, i requires 0 <= i < |d| => d[i].0)
  }

  predicate UniqueKeys(d: Dict) {
    forall i, j :: 0 <= i < j < |d| ==> d[i].0 != d[j].0
  }

  /** `d.get(k)`. */
  function Lookup(d: Dict, k: Cell): Option<Json> {
    if d == [] then None
    else if d[|d| - 1].0 == k then Some(d[|d| - 1].1)
    else Lookup(d[..|d| - 1], k)
  }

  lemma {:induction false} LookupIndex(d: Dict, k: Cell)
    requires UniqueKeys(d)
    ensures Lookup(d, k).None? <==> k !in Keys(d)
    ensures forall i :: 0 <= i < |d| && d[i].0 == k ==> Lookup(d, k) == Some(d[i].1)
  {
    if d != [] {
      var n := |d| - 1;
      LookupIndex(d[..n], k);
      assert Keys(d) == Keys(d[..n]) + [d[n].0];
    }
  }

  /** `d[k] = v`: a new key goes last, an existing key keeps its place. */
  function Put(d: Dict, k: Cell, v: Json): (r: Dict)
    requires UniqueKeys(d)
    ensures UniqueKeys(r)
    ensures k in Keys(d) ==> Keys(r) == Keys(d)
    ensures k !in Keys(d) ==> Keys(r) == Keys(d) + [k]
    ensures Lookup(r, k) == Some(v)
    ensures forall k' :: k' != k ==> Lookup(r, k') == Lookup(d, k')
  {
    var j := IndexOf(d, k);
    var r := if j < |d| then d[j := (k, v)] else d + [(k, v)];
    assert Keys(r) == (if j < |d| then Keys(d) else Keys(d) + [k]);
    LookupIndex(r, k);
    forall k' | k' != k ensures Lookup(r, k') == Lookup(d, k') {
      LookupIndex(r, k');
      LookupIndex(d, k');
      if k' in Keys(d) {
        var i :| 0 <= i < |d| && d[i].0 == k';
        assert r[i] == d[i];
      }
    }
    r
  }

  /** The position of `k`, or `|d|` when it is absent. */
  function IndexOf(d: Dict, k: Cell): (j: nat)
    ensures j <= |d|
    ensures j < |d| ==> d[j].0 == k
    ensures j == |d| ==> k !in Keys(d)
  {
    if d == [] then 0
    else if d[0].0 == k then 0
    else 1 + IndexOf(d[1..], k)
  }

  /** `isochrones_data` after the answers in completion order: truthy answers only, last one wins. */
  function Collected(outcomes: seq<Result<(Cell, Json), Exc>>): (d: Dict)
    ensures UniqueKeys(d)
  {
    if outcomes == [] then []
    else
      var d := Collected(outcomes[..|outcomes| - 1]);
      var o := outcomes[|outcomes| - 1];
      if o.Success? && Truthy(o.value.1) then Put(d, o.value.0, o.value.1) else d
  }

  /** The last truthy answer for centre `k`, an independent account of what is kept. */
  function LastFor(outcomes: seq<Result<(Cell, Json), Exc>>, k: Cell): Option<Json> {
    if outcomes == [] then None
    else
      var o := outcomes[|outcomes| - 1];
      if o.Success? && Truthy(o.value.1) && o.value.0 == k then Some(o.value.1)
      else LastFor(outcomes[..|outcomes| - 1], k)
  }

  /**
   * A centre is kept exactly when some call for it answered without raising and with a
   * truthy result, and it is kept with the last such answer; failures never abort.
   */
  lemma {:induction false} CollectedLastWins(outcomes: seq<Result<(Cell, Json), Exc>>, k: Cell)
    ensures Lookup(Collected(outcomes), k) == LastFor(outcomes, k)
  {
    if outcomes != [] {
      CollectedLastWins(outcomes[..|outcomes| - 1], k);
    }
  }

  /** The answers of the calls, in completion order. */
  function Outcomes(ors: Ors, names: seq<Cell>, coords: seq<Coord>, order: seq<nat>): (os: seq<Result<(Cell, Json), Exc>>)
    requires |names| == |coords| && forall j :: 0 <= j < |order| ==> order[j] < |coords|
    ensures |os| == |order|
  {
    seq(|order|, j requires 0 <= j < |order| => GenerateIsochrone(ors, coords[order[j]], names[order[j]]).outcome)
  }

  /** One more answer folded into the collected dictionary. */
  lemma {:induction false} CollectedStep(os: seq<Result<(Cell, Json), Exc>>, i: nat)
    requires i < |os|
    ensures Collected(os[..i + 1]) ==
              if os[i].Success? && Truthy(os[i].value.1) then Put(Collected(os[..i]), os[i].value.0, os[i].value.1)
              else Collected(os[..i])
  {
    assert os[..i + 1][..i] == os[..i];
  }

  /**
   * The collection loop of `main`: one call per centre in completion order `order` (the
   * thread pool decides it), keeping the truthy answers by centre name.
   */
  method Collect(ors: Ors, names: seq<Cell>, coords: seq<Coord>, order: seq<nat>) returns (data: Dict, pauses: seq<real>)
    requires |names| == |coords| && forall j :: 0 <= j < |order| ==> order[j] < |coords|
    ensures data == Collected(Outcomes(ors, names, coords, order))
    ensures |pauses| == |order| && forall j :: 0 <= j < |pauses| ==> pauses[j] == Pause
  {
    var os := Outcomes(ors, names, coords, order);
    data := [];
    pauses := [];
    var i := 0;
    while i < |order|
      invariant 0 <= i <= |order|
      invariant data == Collected(os[..i])
      invariant |pauses| == i && forall j :: 0 <= j < i ==> pauses[j] == Pause
    {
      data, pauses := CollectOne(ors, names, coords, order, os, i, data, pauses);
      i := i + 1;
    }
    assert os[..i] == os;
  }

  /** One turn of the collection loop: the `i`-th completed call, kept when truthy, and its pause. */
  method CollectOne(ors: Ors, names: seq<Cell>, coords: seq<Coord>, order: seq<nat>, ghost os: seq<Result<(Cell, Json), Exc>>,
                    i: nat, data: Dict, pauses: seq<real>)
    returns (data': Dict, pauses': seq<real>)
    requires |names| == |coords| && forall j :: 0 <= j < |order| ==> order[j] < |coords|
    requires os == Outcomes(ors, names, coords, order) && i < |order|
    requires data == Collected(os[..i])
    requires |pauses| == i && forall j :: 0 <= j < i ==> pauses[j] == Pause
    ensures data' == Collected(os[..i + 1])
    ensures |pauses'| == i + 1 && forall j :: 0 <= j < i + 1 ==> pauses'[j] == Pause
  {
    var g := GenerateIsochrone(ors, coords[order[i]], names[order[i]]);
    assert g.outcome == os[i];
    CollectedStep(os, i);
    data' := data;
    if g.outcome.Success? && Truthy(g.outcome.value.1) {
      data' := Put(data, g.outcome.value.0, g.outcome.value.1);
    }
    pauses' := pauses + g.pauses;
  }

  // ---------------------------------------------------------------------------
  // Well-Known Text (OGC 06-103r4, clause 7)

  /** `f"{x[0]} {x[1]}"` for one position. */
  function PositionText(x: Json): Result<string, Exc> {
    var a :- Index(x, 0);
    var b :- Index(x, 1);
    Success(Text(a) + " " + Text(b))
  }

  /** The positions' texts in order, or the failure of the first position that has no two entries. */
  function PositionTexts(xs: seq<Json>): (r: Result<seq<string>, Exc>)
    ensures r.Success? ==> |r.value| == |xs|
  {
    if xs == [] then Success([])
    else
      match PositionTexts(xs[..|xs| - 1])
      case Failure(e) => Failure(e)
      case Success(init) =>
        match PositionText(xs[|xs| - 1])
        case Failure(e) => Failure(e)
        case Success(last) => Success(init + [last])
  }

  /** Every position with two entries gives its `"x y"` text, in ring order. */
  lemma {:induction false} PositionTextsSpec(xs: seq<Json>)
    requires forall i :: 0 <= i < |xs| ==> xs[i].JArr? && |xs[i].items| >= 2
    ensures PositionTexts(xs) == Success(RingTexts(xs))
  {
    if xs != [] {
      var n := |xs| - 1;
      PositionTextsSpec(xs[..n]);
      PositionTextOf(xs[n]);
      RingTextsSnoc(xs);
    }
  }

  lemma {:induction false} PositionTextOf(x: Json)
    requires x.JArr? && |x.items| >= 2
    ensures PositionText(x) == Success(PairText(x))
  {
    assert Index(x, 0) == Success(x.items[0]);
    assert Index(x, 1) == Success(x.items[1]);
  }

  lemma {:induction false} RingTextsSnoc(xs: seq<Json>)
    requires xs != [] && forall i :: 0 <= i < |xs| ==> xs[i].JArr? && |xs[i].items| >= 2
    ensures var n := |xs| - 1;
            RingTexts(xs) == RingTexts(xs[..n]) + [PairText(xs[n])]
  {
    var n := |xs| - 1;
    assert forall i :: 0 <= i < n ==> xs[..n][i] == xs[i];
  }

  /** The `"x y"` text of a position with two entries. */
  function PairText(x: Json): string
    requires x.JArr? && |x.items| >= 2
  {
    Text(x.items[0]) + " " + Text(x.items[1])
  }

  /** The `"x y"` texts of positions that all have two entries. */
  function RingTexts(xs: seq<Json>): (r: seq<string>)
    requires forall i :: 0 <= i < |xs| ==> xs[i].JArr? && |xs[i].items| >= 2
    ensures |r| == |xs|
  {
    seq(|xs|, i requires 0 <= i < |xs| => PairText(xs[i]))
  }

  const Insufficient := "Invalid polygon: insufficient coordinates"

  /** The body of the geometry `try` block: the polygon's text, or what the block raises. */
  function PolygonRaw(geometry: Json): Result<string, Exc> {
    var t :- At(geometry, "type");
    if t != JStr("Polygon") then Failure(Exc(GeoJSONError, "Expected Polygon geometry, got " + Text(t)))
    else
      var c :- At(geometry, "coordinates");
      var ring :- Index(c, 0);
      if !Truthy(ring) then Failure(Exc(GeoJSONError, Insufficient))
      else
        var n :- Len(ring);
        if n < 4 then Failure(Exc(GeoJSONError, Insufficient))
        else match ring
          case JArr(xs) =>
            var parts :- PositionTexts(xs);
            Success("POLYGON((" + PyText.Join(", ", parts) + "))")
          // each one-character string of a string ring has no second entry
          case JStr(_) => Failure(Exc(IndexError, "string index out of range"))
          case _ => Failure(Exc(TypeError, "'" + TypeName(ring) + "' ring is not a list of positions"))
  }

  /** The two `except` clauses: a lookup failure is a structure error, anything else is unexpected. */
  function GeometryError(e: Exc): (g: Exc)
    ensures g.cls == GeoJSONError
  {
    if e.cls == KeyError || e.cls == IndexError then Exc(GeoJSONError, "Invalid GeoJSON geometry structure: " + e.msg)
    else Exc(GeoJSONError, "Unexpected geometry error: " + e.msg)
  }

  /** The polygon's Well-Known Text, or the `GeoJSONError` the geometry block raises. */
  function PolygonWkt(geometry: Json): (r: Result<string, Exc>)
    ensures r.Failure? ==> r.error.cls == GeoJSONError
  {
    match PolygonRaw(geometry)
    case Success(w) => Success(w)
    case Failure(e) => Failure(GeometryError(e))
  }

  /** The centre's Well-Known Text. */
  function PointWkt(x: Json, y: Json): string {
    "POINT(" + Text(x) + " " + Text(y) + ")"
  }

  /** A polygon whose outer ring holds at least four positions becomes `POLYGON((x1 y1, x2 y2, ...))` over that ring, in order. */
  lemma {:induction false} PolygonWktFormat(geometry: Json, ring: seq<Json>)
    requires geometry.JObj? && "type" in geometry.fields && geometry.fields["type"] == JStr("Polygon")
    requires "coordinates" in geometry.fields && geometry.fields["coordinates"].JArr?
    requires |geometry.fields["coordinates"].items| >= 1 && geometry.fields["coordinates"].items[0] == JArr(ring)
    requires |ring| >= 4 && forall i :: 0 <= i < |ring| ==> ring[i].JArr? && |ring[i].items| >= 2
    ensures PolygonWkt(geometry) == Success("POLYGON((" + PyText.Join(", ", RingTexts(ring)) + "))")
    ensures forall i :: 0 <= i < |ring| ==> RingTexts(ring)[i] == PairText(ring[i])
  {
    PositionTextsSpec(ring);
  }

  /**
   * A geometry that is not a polygon, or whose outer ring has fewer than four positions,
   * raises `GeoJSONError`; the `except Exception` clause catches the error raised inside
   * the block, so its message arrives prefixed with "Unexpected geometry error: ".
   */
  lemma {:induction false} PolygonWktRejects(geometry: Json)
    requires geometry.JObj? && "type" in geometry.fields
    ensures geometry.fields["type"] != JStr("Polygon") ==>
              PolygonWkt(geometry) == Failure(Exc(GeoJSONError, "Unexpected geometry error: " + ("Expected Polygon geometry, got " + Text(geometry.fields["type"]))))
    ensures geometry.fields["type"] == JStr("Polygon") && "coordinates" in geometry.fields &&
            geometry.fields["coordinates"].JArr? && |geometry.fields["coordinates"].items| >= 1 &&
            geometry.fields["coordinates"].items[0].JArr? && |geometry.fields["coordinates"].items[0].items| < 4 ==>
              PolygonWkt(geometry) == Failure(Exc(GeoJSONError, "Unexpected geometry error: " + Insufficient))
    ensures "coordinates" !in geometry.fields && geometry.fields["type"] == JStr("Polygon") ==>
              PolygonWkt(geometry) == Failure(Exc(GeoJSONError, "Invalid GeoJSON geometry structure: " + KeyRepr("coordinates")))
  {
  }

  // ---------------------------------------------------------------------------
  // The isochrones table

  /** The columns of one isochrone row. */
  datatype IsoRow = IsoRow(name: Cell, state: Cell, zip: Cell, groupIndex: Json, value: Json,
                           center: string, geometry: string, metadata: Json)

  /** The key upserts look rows up by. */
  datatype Key = Key(name: Cell, groupIndex: Json, value: Json)

  function KeyOf(r: IsoRow): Key {
    Key(r.name, r.groupIndex, r.value)
  }

  datatype Record = Record(id: int, row: IsoRow)

  /** The isochrones table as a value: its records in store order and the next id it assigns. */
  datatype StoreState = StoreState(records: seq<Record>, nextId: int)

  /** Ids are distinct and below the next one. */
  predicate IdsValid(s: StoreState) {
    (forall i :: 0 <= i < |s.records| ==> s.records[i].id < s.nextId) &&
    (forall i, j :: 0 <= i < j < |s.records| ==> s.records[i].id != s.records[j].id)
  }

  /** No two records share a (name, group_index, value) key. */
  predicate KeysUnique(records: seq<Record>) {
    forall i, j :: 0 <= i < j < |records| ==> KeyOf(records[i].row) != KeyOf(records[j].row)
  }

  /** The ids of the records with key `k`, in store order: the response to the existing-row query. */
  function Matching(records: seq<Record>, k: Key): seq<int> {
    if records == [] then []
    else Matching(records[..|records| - 1], k) + (if KeyOf(records[|records| - 1].row) == k then [records[|records| - 1].id] else [])
  }

  /** An id is returned exactly when a record with that id has the key. */
  lemma {:induction false} MatchingSpec(records: seq<Record>, k: Key, id: int)
    ensures id in Matching(records, k) <==> exists i :: 0 <= i < |records| && records[i].id == id && KeyOf(records[i].row) == k
  {
    if records != [] {
      var n := |records| - 1;
      MatchingSpec(records[..n], k, id);
      if id in Matching(records[..n], k) {
        var i :| 0 <= i < n && records[..n][i].id == id && KeyOf(records[..n][i].row) == k;
        assert records[i] == records[..n][i];
      }
      if exists i :: 0 <= i < |records| && records[i].id == id && KeyOf(records[i].row) == k {
        var i :| 0 <= i < |records| && records[i].id == id && KeyOf(records[i].row) == k;
        if i < n {
          assert records[..n][i] == records[i];
        }
      }
    }
  }

  /** `update(row).eq("id", id)`: every record with that id takes the new columns. */
  function UpdateRecords(records: seq<Record>, id: int, row: IsoRow): (r: seq<Record>)
    ensures |r| == |records|
    ensures forall i :: 0 <= i < |r| ==> r[i] == if records[i].id == id then Record(id, row) else records[i]
  {
    seq(|records|, i requires 0 <= i < |records| => if records[i].id == id then Record(id, row) else records[i])
  }

  /** The store's reply to a write: an error text (empty when the write succeeded), or a raised exception. */
  datatype Reply = Reply(err: string) | Raised(e: Exc)

  /** What the store does at each feature: the existing-row query may raise, and the write replies. */
  datatype Faults = Faults(lookup: nat -> Option<Exc>, write: nat -> Reply)

  /** An exception leaving `ExceptionContext(op, cls)`. */
  function Contextual(op: string, cls: ErrClass, e: Exc): Exc {
    var raised: Result<(), Exc> := Failure(e);
    ExceptionContext(op, cls, raised).error
  }

  /** What every feature of one centre shares. */
  datatype Ctx = Ctx(name: Cell, state: Cell, zip: Cell, metadata: Json, dryRun: bool, faults: Faults)

  /** `{**m}`: only a dict can be spread. */
  function Spread(m: Json): (r: Result<Json, Exc>)
    ensures r.Success? <==> m.JObj?
    ensures r.Success? ==> r.value == m
  {
    if m.JObj? then Success(m) else Failure(Exc(TypeError, NotAMapping(m)))
  }

  /** The row one feature asks to store, or what reading the feature raises. */
  function FeatureRow(f: Json, ctx: Ctx): Result<IsoRow, Exc> {
    var props :- At(f, "properties");
    var groupIndex :- At(props, "group_index");
    var value :- At(props, "value");
    var center :- At(props, "center");
    var geometry :- At(f, "geometry");
    var x :- Index(center, 0);
    var y :- Index(center, 1);
    var polygon :- PolygonWkt(geometry);
    var metadata :- Spread(ctx.metadata);
    Success(IsoRow(ctx.name, ctx.state, ctx.zip, groupIndex, value, PointWkt(x, y), polygon, metadata))
  }

  /** One feature: look the key up, then update the first match or insert, unless this is a dry run. */
  function FeatureStep(s: StoreState, ctx: Ctx, f: Json, i: nat): (StoreState, Option<Exc>) {
    match FeatureRow(f, ctx)
    case Failure(e) => (s, Some(e))
    case Success(row) =>
      if ctx.faults.lookup(i).Some? then
        (s, Some(Contextual("Querying existing isochrones", DataAccessError, ctx.faults.lookup(i).value)))
      else if ctx.dryRun then (s, None)
      else
        var ids := Matching(s.records, KeyOf(row));
        match ctx.faults.write(i)
        case Raised(e) =>
          (s, Some(Contextual(if ids != [] then "Updating isochrone data" else "Inserting isochrone data", DataProcessingError, e)))
        case Reply(err) =>
          if err != "" then (s, Some(Exc(DataProcessingError, "Failed to upsert isochrone: " + err)))
          else (Written(s, row), None)
  }

  /** The store after a successful write of `row`: the first record with its key is updated, or the row is inserted. */
  function Written(s: StoreState, row: IsoRow): StoreState {
    var ids := Matching(s.records, KeyOf(row));
    if ids != [] then StoreState(UpdateRecords(s.records, ids[0], row), s.nextId)
    else StoreState(s.records + [Record(s.nextId, row)], s.nextId + 1)
  }

  /** The features in order, stopping at the first one that raises. */
  function Run(s: StoreState, ctx: Ctx, feats: seq<Json>): (StoreState, Option<Exc>) {
    if feats == [] then (s, None)
    else Continue(Run(s, ctx, feats[..|feats| - 1]), ctx, feats[|feats| - 1], |feats| - 1)
  }

  /** Feature `i` after the earlier ones: skipped once one of them has raised. */
  function Continue(p: (StoreState, Option<Exc>), ctx: Ctx, f: Json, i: nat): (StoreState, Option<Exc>) {
    if p.1.Some? then p else FeatureStep(p.0, ctx, f, i)
  }

  /** The first row of the centres table whose city is `name` (`NaN` and `None` never compare equal). */
  function FirstMatch(rows: seq<Row>, name: Cell): (r: Option<nat>)
    ensures r.Some? ==> r.value < |rows| && CityIs(rows[r.value], name) &&
                        forall j :: 0 <= j < r.value ==> !CityIs(rows[j], name)
    ensures r.None? ==> forall j :: 0 <= j < |rows| ==> !CityIs(rows[j], name)
  {
    if rows == [] then None
    else if CityIs(rows[0], name) then Some(0)
    else match FirstMatch(rows[1..], name)
      case None => None
      case Some(j) => Some(j + 1)
  }

  predicate CityIs(row: Row, name: Cell) {
    "city" in row && row["city"] == name && !Frames.IsNa(name)
  }

  /** State and zip code from the first matching centre row; `None` where there is none. */
  function FromTable(name: Cell, centers: Option<Table>): Result<(Cell, Cell), Exc> {
    match centers
    case None => Success((Frames.CNone, Frames.CNone))
    case Some(t) =>
      if "city" !in t.columns then Failure(Exc(KeyError, KeyRepr("city")))
      else match FirstMatch(t.rows, name)
        case None => Success((Frames.CNone, Frames.CNone))
        case Some(i) =>
          Success((if "state" in t.columns then Frames.Get(t.rows[i], "state", Frames.CNone) else Frames.CNone,
                   if "zip_code" in t.columns then Frames.Get(t.rows[i], "zip_code", Frames.CNone) else Frames.CNone))
  }

  /** The store's answer to the centre query fills in whichever of state and zip code is `None`. */
  function FromStore(name: Cell, state: Cell, zip: Cell, query: Result<seq<Row>, Exc>): Result<(Cell, Cell), Exc> {
    var rows :- query;
    if rows == [] then Failure(Exc(DataValidationError, "Center information missing for '" + Frames.Str(name) + "'"))
    else Success((if state.CNone? then Frames.Get(rows[0], "state", Frames.CNone) else state,
                  if zip.CNone? then Frames.Get(rows[0], "zip_code", Frames.CNone) else zip))
  }

  /**
   * The state and zip code of centre `name`: from the centre table first, then from the
   * store (queried only when one is still `None`); both are required.
   */
  function StateZip(name: Cell, centers: Option<Table>, query: Result<seq<Row>, Exc>): (r: Result<(Cell, Cell), Exc>)
    ensures r.Success? ==> !r.value.0.CNone? && !r.value.1.CNone?
    ensures FromTable(name, centers).Success? && !FromTable(name, centers).value.0.CNone? && !FromTable(name, centers).value.1.CNone? ==>
              r == FromTable(name, centers)
    ensures FromTable(name, centers) == Success((Frames.CNone, Frames.CNone)) && query == Success([]) ==>
              r == Failure(Exc(DataValidationError, "Center information missing for '" + Frames.Str(name) + "'"))
    ensures r.Failure? && FromTable(name, centers).Success? ==> IsAppError(r.error.cls)
  {
    var found :- FromTable(name, centers);
    var filled :- if found.0.CNone? || found.1.CNone? then
                    ExceptionContext("Retrieving center information", DataAccessError, FromStore(name, found.0, found.1, query))
                  else Success(found);
    if filled.0.CNone? then Failure(Exc(DataValidationError, "State information missing for center '" + Frames.Str(name) + "'"))
    else if filled.1.CNone? then Failure(Exc(DataValidationError, "Zip code information missing for center '" + Frames.Str(name) + "'"))
    else Success(filled)
  }

  /** The mapping of `upsert_isochrones`'s decorator. */
  const UpsertMapping: map<ErrClass, ErrClass> := map[ValueError := DataValidationError, Exception := DataProcessingError]

  /** What `upsert_isochrones` reads before the features: the metadata, state, zip code and feature list. */
  datatype Prelude = Prelude(metadata: Json, state: Cell, zip: Cell, features: seq<Json>)

  function ReadPrelude(name: Cell, result: Json, centers: Option<Table>, query: Result<seq<Row>, Exc>): Result<Prelude, Exc> {
    var metadata :- GetOr(result, "metadata", JObj(map[]));
    var sz :- StateZip(name, centers, query);
    var fs :- At(result, "features");
    var feats :- Items(fs);
    Success(Prelude(metadata, sz.0, sz.1, feats))
  }

  /**
   * `upsert_isochrones(store, name, result, dry_run, centers)` on a store state: the new
   * state and what the call returns or raises.
   */
  function Upsert(s: StoreState, name: Cell, result: Json, dryRun: bool, centers: Option<Table>,
                  query: Result<seq<Row>, Exc>, faults: Faults): (r: (StoreState, Result<(), Exc>))
    ensures r.1.Failure? ==> IsAppError(r.1.error.cls)
  {
    match ReadPrelude(name, result, centers, query)
    case Failure(e) => (s, HandleException(Failure(e), UpsertMapping))
    case Success(p) =>
      var (s1, err) := Run(s, Ctx(name, p.state, p.zip, p.metadata, dryRun, faults), p.features);
      (s1, if err.Some? then HandleException(Failure(err.value), UpsertMapping) else Success(()))
  }

  /** A dry run looks every key up but never writes. */
  lemma {:induction false} RunDry(s: StoreState, ctx: Ctx, feats: seq<Json>)
    requires ctx.dryRun
    ensures Run(s, ctx, feats).0 == s
  {
    if feats != [] {
      RunDry(s, ctx, feats[..|feats| - 1]);
    }
  }

  /** A dry run leaves the store as it was, whatever the outcome. */
  lemma {:induction false} UpsertDryRun(s: StoreState, name: Cell, result: Json, centers: Option<Table>, query: Result<seq<Row>, Exc>, faults: Faults)
    ensures Upsert(s, name, result, true, centers, query, faults).0 == s
  {
    var p := ReadPrelude(name, result, centers, query);
    if p.Success? {
      RunDry(s, Ctx(name, p.value.state, p.value.zip, p.value.metadata, true, faults), p.value.features);
    }
  }

  /** When state or zip code cannot be resolved, nothing is written. */
  lemma {:induction false} UpsertMissingStateZip(s: StoreState, name: Cell, result: Json, dryRun: bool, centers: Option<Table>, query: Result<seq<Row>, Exc>, faults: Faults)
    requires result.JObj? && StateZip(name, centers, query).Failure?
    ensures var (s1, r) := Upsert(s, name, result, dryRun, centers, query, faults);
            s1 == s && r.Failure?
    ensures FromTable(name, centers).Success? ==>
              Upsert(s, name, result, dryRun, centers, query, faults).1 == Failure(StateZip(name, centers, query).error)
  {
  }

  /**
   * A feature that is written: with a matching record, the first match takes the new row
   * and keeps its id; without one, the row is inserted under the next id.
   */
  lemma {:induction false} StepWrites(s: StoreState, ctx: Ctx, f: Json, i: nat)
    requires !ctx.dryRun && FeatureRow(f, ctx).Success? && ctx.faults.lookup(i).None?
    requires ctx.faults.write(i) == Reply("")
    ensures var row := FeatureRow(f, ctx).value;
            var ids := Matching(s.records, KeyOf(row));
            FeatureStep(s, ctx, f, i) ==
              if ids != [] then (StoreState(UpdateRecords(s.records, ids[0], row), s.nextId), None)
              else (StoreState(s.records + [Record(s.nextId, row)], s.nextId + 1), None)
  {
    assert FeatureStep(s, ctx, f, i) == (Written(s, FeatureRow(f, ctx).value), None);
  }

  /** The stored row carries the centre's name, state, zip code and metadata, and the feature's group index and value. */
  lemma {:induction false} FeatureRowFields(f: Json, ctx: Ctx)
    requires FeatureRow(f, ctx).Success?
    ensures var row := FeatureRow(f, ctx).value;
            row.name == ctx.name && row.state == ctx.state && row.zip == ctx.zip && row.metadata == ctx.metadata &&
            f.fields["properties"].fields["group_index"] == row.groupIndex && f.fields["properties"].fields["value"] == row.value
  {
  }

  /** An update keeps every record's key when the records it touches already have the row's key. */
  lemma {:induction false} UpdateKeepsKeys(records: seq<Record>, id: int, row: IsoRow)
    requires forall i :: 0 <= i < |records| && records[i].id == id ==> KeyOf(records[i].row) == KeyOf(row)
    ensures forall i :: 0 <= i < |records| ==>
              KeyOf(UpdateRecords(records, id, row)[i].row) == KeyOf(records[i].row) &&
              UpdateRecords(records, id, row)[i].id == records[i].id
  {
  }

  /** A write keeps ids valid and keys unique. */
  lemma {:induction false} WrittenKeepsInvariant(s: StoreState, row: IsoRow)
    requires IdsValid(s) && KeysUnique(s.records)
    ensures IdsValid(Written(s, row)) && KeysUnique(Written(s, row).records)
  {
    var ids := Matching(s.records, KeyOf(row));
    if ids != [] {
      UpdateKeepsInvariant(s, row, ids[0]);
    } else {
      InsertKeepsInvariant(s, row);
    }
  }

  /** Updating the first match keeps ids valid and keys unique. */
  lemma {:induction false} UpdateKeepsInvariant(s: StoreState, row: IsoRow, id: int)
    requires IdsValid(s) && KeysUnique(s.records)
    requires id in Matching(s.records, KeyOf(row))
    ensures var s1 := StoreState(UpdateRecords(s.records, id, row), s.nextId);
            IdsValid(s1) && KeysUnique(s1.records)
  {
    var k := KeyOf(row);
    MatchingSpec(s.records, k, id);
    var j :| 0 <= j < |s.records| && s.records[j].id == id && KeyOf(s.records[j].row) == k;
    UpdateKeepsKeys(s.records, id, row);
  }

  /** Inserting a row whose key no record has keeps ids valid and keys unique. */
  lemma {:induction false} InsertKeepsInvariant(s: StoreState, row: IsoRow)
    requires IdsValid(s) && KeysUnique(s.records)
    requires Matching(s.records, KeyOf(row)) == []
    ensures var s1 := StoreState(s.records + [Record(s.nextId, row)], s.nextId + 1);
            IdsValid(s1) && KeysUnique(s1.records)
  {
    var k := KeyOf(row);
    forall j | 0 <= j < |s.records| ensures KeyOf(s.records[j].row) != k {
      MatchingSpec(s.records, k, s.records[j].id);
    }
  }

  /** One feature keeps ids valid and keys unique. */
  lemma {:induction false} StepKeepsInvariant(s: StoreState, ctx: Ctx, f: Json, i: nat)
    requires IdsValid(s) && KeysUnique(s.records)
    ensures IdsValid(FeatureStep(s, ctx, f, i).0) && KeysUnique(FeatureStep(s, ctx, f, i).0.records)
  {
    var row := FeatureRow(f, ctx);
    if row.Success? {
      WrittenKeepsInvariant(s, row.value);
    }
  }

  /** Every prefix of the features keeps ids valid and keys unique. */
  lemma {:induction false} RunKeepsInvariant(s: StoreState, ctx: Ctx, feats: seq<Json>)
    requires IdsValid(s) && KeysUnique(s.records)
    ensures IdsValid(Run(s, ctx, feats).0) && KeysUnique(Run(s, ctx, feats).0.records)
  {
    if feats != [] {
      var n := |feats| - 1;
      RunKeepsInvariant(s, ctx, feats[..n]);
      var p := Run(s, ctx, feats[..n]);
      if p.1.None? {
        StepKeepsInvariant(p.0, ctx, feats[n], n);
      }
    }
  }

  /** Upserting never creates two records with the same (name, group_index, value) key. */
  lemma {:induction false} UpsertKeepsKeysUnique(s: StoreState, name: Cell, result: Json, dryRun: bool, centers: Option<Table>,
                              query: Result<seq<Row>, Exc>, faults: Faults)
    requires IdsValid(s) && KeysUnique(s.records)
    ensures var s1 := Upsert(s, name, result, dryRun, centers, query, faults).0;
            IdsValid(s1) && KeysUnique(s1.records)
  {
    var p := ReadPrelude(name, result, centers, query);
    if p.Success? {
      RunKeepsInvariant(s, Ctx(name, p.value.state, p.value.zip, p.value.metadata, dryRun, faults), p.value.features);
    }
  }

  /** One feature further: while nothing has raised, the run takes that feature's step. */
  lemma {:induction false} RunStep(s: StoreState, ctx: Ctx, feats: seq<Json>, i: nat)
    requires i < |feats| && Run(s, ctx, feats[..i]).1.None?
    ensures Run(s, ctx, feats[..i + 1]) == FeatureStep(Run(s, ctx, feats[..i]).0, ctx, feats[i], i)
  {
    assert feats[..i + 1][..i] == feats[..i];
  }

  /**
   * Processing stops at the first feature that raises: the features before it are
   * already written, and the ones after it are not looked at.
   */
  lemma {:induction false} RunStopsAtFailure(s: StoreState, ctx: Ctx, feats: seq<Json>, k: nat)
    requires k <= |feats| && Run(s, ctx, feats[..k]).1.Some?
    ensures Run(s, ctx, feats) == Run(s, ctx, feats[..k])
    decreases |feats|
  {
    if k < |feats| {
      var n := |feats| - 1;
      assert feats[..n][..k] == feats[..k];
      RunStopsAtFailure(s, ctx, feats[..n], k);
      assert Run(s, ctx, feats) == Continue(Run(s, ctx, feats[..n]), ctx, feats[n], n);
    } else {
      assert feats[..k] == feats;
    }
  }

  /** The isochrones table, updated in place by upserts. */
  class IsochroneStore {
    var records: seq<Record>
    var nextId: int

    function State(): StoreState
      reads this
    {
      StoreState(records, nextId)
    }

    constructor (s: StoreState)
      ensures State() == s
    {
      records := s.records;
      nextId := s.nextId;
    }

    /** `update(row).eq("id", id).execute()` that succeeded. */
    method Update(id: int, row: IsoRow)
      modifies this
      ensures records == UpdateRecords(old(records), id, row) && nextId == old(nextId)
    {
      records := UpdateRecords(records, id, row);
    }

    /** `insert(row).execute()` that succeeded: the row gets the next id. */
    method Insert(row: IsoRow) returns (id: int)
      modifies this
      ensures id == old(nextId)
      ensures records == old(records) + [Record(id, row)] && nextId == old(nextId) + 1
    {
      id := nextId;
      records := records + [Record(id, row)];
      nextId := nextId + 1;
    }
  }

  /** The lookup and write of one feature against the store. */
  method WriteFeature(store: IsochroneStore, ctx: Ctx, f: Json, i: nat) returns (err: Option<Exc>)
    modifies store
    ensures (store.State(), err) == FeatureStep(old(store.State()), ctx, f, i)
  {
    var row := FeatureRow(f, ctx);
    if row.Failure? {
      err := Some(row.error);
    } else if ctx.faults.lookup(i).Some? {
      err := Some(Contextual("Querying existing isochrones", DataAccessError, ctx.faults.lookup(i).value));
    } else if ctx.dryRun {
      err := None;
    } else {
      err := WriteRow(store, row.value, ctx.faults.write(i));
    }
  }

  /** The update or insert of one row, given the store's reply to it. */
  method WriteRow(store: IsochroneStore, row: IsoRow, reply: Reply) returns (err: Option<Exc>)
    modifies store
    ensures (store.State(), err) == match reply
              case Raised(e) =>
                var ids := Matching(old(store.records), KeyOf(row));
                (old(store.State()), Some(Contextual(if ids != [] then "Updating isochrone data" else "Inserting isochrone data", DataProcessingError, e)))
              case Reply(msg) =>
                if msg != "" then (old(store.State()), Some(Exc(DataProcessingError, "Failed to upsert isochrone: " + msg)))
                else (Written(old(store.State()), row), None)
  {
    var ids := Matching(store.records, KeyOf(row));
    match reply
    case Raised(e) =>
      err := Some(Contextual(if ids != [] then "Updating isochrone data" else "Inserting isochrone data", DataProcessingError, e));
    case Reply(msg) =>
      if msg != "" {
        err := Some(Exc(DataProcessingError, "Failed to upsert isochrone: " + msg));
      } else if ids != [] {
        store.Update(ids[0], row);
        err := None;
      } else {
        var _ := store.Insert(row);
        err := None;
      }
  }

  /**
   * `upsert_isochrones(store, name, result, dry_run, centers)`: resolve state and zip
   * code, then look up and write each feature in order.
   */
  method UpsertIsochrones(store: IsochroneStore, name: Cell, result: Json, dryRun: bool, centers: Option<Table>,
                          query: Result<seq<Row>, Exc>, faults: Faults) returns (r: Result<(), Exc>)
    modifies store
    ensures (store.State(), r) == Upsert(old(store.State()), name, result, dryRun, centers, query, faults)
  {
    var p := ReadPrelude(name, result, centers, query);
    if p.Failure? {
      r := HandleException(Failure(p.error), UpsertMapping);
      return;
    }
    var ctx := Ctx(name, p.value.state, p.value.zip, p.value.metadata, dryRun, faults);
    var feats := p.value.features;
    ghost var s0 := store.State();
    var err: Option<Exc> := None;
    var i := 0;
    while i < |feats| && err.None?
      invariant 0 <= i <= |feats|
      invariant (store.State(), err) == Run(s0, ctx, feats[..i])
    {
      RunStep(s0, ctx, feats, i);
      err := WriteFeature(store, ctx, feats[i], i);
      i := i + 1;
    }
    if err.Some? {
      RunStopsAtFailure(s0, ctx, feats, i);
    } else {
      assert feats[..i] == feats;
    }
    assert (store.State(), err) == Run(s0, ctx, feats);
    r := if err.Some? then HandleException(Failure(err.value), UpsertMapping) else Success(());
  }

  // ---------------------------------------------------------------------------
  // Saving to the store (use-db mode of `main`)

  /** What upserting one centre does, given the store so far. */
  type Upserter = (StoreState, (Cell, Json)) -> (StoreState, Result<(), Exc>)

  /** The centres upserted one after another in dictionary order, stopping at the first failure. */
  function Chain(s: StoreState, data: Dict, up: Upserter): (StoreState, Result<(), Exc>) {
    if data == [] then (s, Success(()))
    else
      var p := Chain(s, data[..|data| - 1], up);
      if p.1.Failure? then p else up(p.0, data[|data| - 1])
  }

  /** Once a centre fails, the later ones are not upserted. */
  lemma {:induction false} ChainStops(s: StoreState, data: Dict, up: Upserter, k: nat)
    requires k <= |data| && Chain(s, data[..k], up).1.Failure?
    ensures Chain(s, data, up) == Chain(s, data[..k], up)
    decreases |data|
  {
    if k < |data| {
      var n := |data| - 1;
      assert data[..n][..k] == data[..k];
      ChainStops(s, data[..n], up, k);
    } else {
      assert data[..k] == data;
    }
  }

  /** `upsert_isochrones` for one centre of `main`: no centre table, the centre's own lookup answer and faults. */
  function UpsertStep(dryRun: bool, query: Cell -> Result<seq<Row>, Exc>, faults: Cell -> Faults): Upserter {
    (st: StoreState, kv: (Cell, Json)) => Upsert(st, kv.0, kv.1, dryRun, None, query(kv.0), faults(kv.0))
  }

  /** The upserts of `main`, one centre after another in dictionary order, stopping at the first failure. */
  function UpsertAll(s: StoreState, data: Dict, dryRun: bool, query: Cell -> Result<seq<Row>, Exc>, faults: Cell -> Faults)
    : (StoreState, Result<(), Exc>)
  {
    Chain(s, data, UpsertStep(dryRun, query, faults))
  }

  /** The batch raises only application errors. */
  lemma {:induction false} UpsertAllRaisesAppErrors(s: StoreState, data: Dict, dryRun: bool, query: Cell -> Result<seq<Row>, Exc>,
                                                    faults: Cell -> Faults)
    ensures var r := UpsertAll(s, data, dryRun, query, faults).1;
            r.Failure? ==> IsAppError(r.error.cls)
  {
    if data != [] {
      var n := |data| - 1;
      UpsertAllRaisesAppErrors(s, data[..n], dryRun, query, faults);
      var p := UpsertAll(s, data[..n], dryRun, query, faults);
      if p.1.Success? {
        var q := Upsert(p.0, data[n].0, data[n].1, dryRun, None, query(data[n].0), faults(data[n].0));
        assert UpsertAll(s, data, dryRun, query, faults) == q;
      }
    }
  }

  /** One centre further: while nothing has failed, the batch upserts that centre. */
  lemma {:induction false} UpsertAllStep(s: StoreState, data: Dict, dryRun: bool, query: Cell -> Result<seq<Row>, Exc>,
                                         faults: Cell -> Faults, i: nat)
    requires i < |data| && UpsertAll(s, data[..i], dryRun, query, faults).1.Success?
    ensures UpsertAll(s, data[..i + 1], dryRun, query, faults) ==
              Upsert(UpsertAll(s, data[..i], dryRun, query, faults).0, data[i].0, data[i].1, dryRun, None, query(data[i].0), faults(data[i].0))
  {
    assert data[..i + 1][..i] == data[..i];
  }

  /** Once a centre fails, the later ones are not upserted. */
  lemma {:induction false} UpsertAllStops(s: StoreState, data: Dict, dryRun: bool, query: Cell -> Result<seq<Row>, Exc>,
                                          faults: Cell -> Faults, k: nat)
    requires k <= |data| && UpsertAll(s, data[..k], dryRun, query, faults).1.Failure?
    ensures UpsertAll(s, data, dryRun, query, faults) == UpsertAll(s, data[..k], dryRun, query, faults)
  {
    ChainStops(s, data, UpsertStep(dryRun, query, faults), k);
  }

  /** A dry run of the whole batch leaves the store as it was. */
  lemma {:induction false} UpsertAllDryRun(s: StoreState, data: Dict, query: Cell -> Result<seq<Row>, Exc>, faults: Cell -> Faults)
    ensures UpsertAll(s, data, true, query, faults).0 == s
  {
    if data != [] {
      var n := |data| - 1;
      UpsertAllDryRun(s, data[..n], query, faults);
      UpsertDryRun(s, data[n].0, data[n].1, None, query(data[n].0), faults(data[n].0));
    }
  }

  /** The whole batch keeps ids valid and (name, group_index, value) keys unique. */
  lemma {:induction false} UpsertAllKeepsKeysUnique(s: StoreState, data: Dict, dryRun: bool, query: Cell -> Result<seq<Row>, Exc>,
                                                    faults: Cell -> Faults)
    requires IdsValid(s) && KeysUnique(s.records)
    ensures var s1 := UpsertAll(s, data, dryRun, query, faults).0;
            IdsValid(s1) && KeysUnique(s1.records)
  {
    if data != [] {
      var n := |data| - 1;
      UpsertAllKeepsKeysUnique(s, data[..n], dryRun, query, faults);
      var p := UpsertAll(s, data[..n], dryRun, query, faults);
      UpsertKeepsKeysUnique(p.0, data[n].0, data[n].1, dryRun, None, query(data[n].0), faults(data[n].0));
    }
  }

  /**
   * The use-db branch of `main`: `upsert_isochrones` for each collected centre, without a
   * centre table, aborting at the first failure.
   */
  method SaveToStore(store: IsochroneStore, data: Dict, dryRun: bool, query: Cell -> Result<seq<Row>, Exc>, faults: Cell -> Faults)
    returns (r: Result<(), Exc>)
    modifies store
    ensures (store.State(), r) == UpsertAll(old(store.State()), data, dryRun, query, faults)
  {
    ghost var s0 := store.State();
    r := Success(());
    var i := 0;
    while i < |data| && r.Success?
      invariant 0 <= i <= |data|
      invariant (store.State(), r) == UpsertAll(s0, data[..i], dryRun, query, faults)
    {
      UpsertAllStep(s0, data, dryRun, query, faults, i);
      r := UpsertIsochrones(store, data[i].0, data[i].1, dryRun, None, query(data[i].0), faults(data[i].0));
      i := i + 1;
    }
    if r.Failure? {
      UpsertAllStops(s0, data, dryRun, query, faults, i);
    } else {
      assert data[..i] == data;
    }
  }

  // ---------------------------------------------------------------------------
  // Saving to files (use-local mode of `main`)

  predicate IsAsciiAlnum(c: char) {
    'a' <= c <= 'z' || 'A' <= c <= 'Z' || '0' <= c <= '9'
  }

  /** `re.sub(r"[^a-zA-Z0-9]", "", s)`. */
  function Sanitize(s: string): (r: string)
    ensures |r| <= |s|
    ensures forall i :: 0 <= i < |r| ==> IsAsciiAlnum(r[i])
  {
    if s == [] then ""
    else Sanitize(s[..|s| - 1]) + (if IsAsciiAlnum(s[|s| - 1]) then [s[|s| - 1]] else "")
  }

  /** Sanitizing works character by character: it distributes over concatenation. */
  lemma {:induction false} SanitizeConcat(a: string, b: string)
    ensures Sanitize(a + b) == Sanitize(a) + Sanitize(b)
    decreases |b|
  {
    if b != [] {
      var n := |b| - 1;
      assert (a + b)[..|a + b| - 1] == a + b[..n];
      SanitizeConcat(a, b[..n]);
    } else {
      assert a + b == a;
    }
  }

  /** A name made of letters and digits only is kept as it is. */
  lemma {:induction false} SanitizeKeepsAlnum(s: string)
    requires forall i :: 0 <= i < |s| ==> IsAsciiAlnum(s[i])
    ensures Sanitize(s) == s
  {
    if s != [] {
      SanitizeKeepsAlnum(s[..|s| - 1]);
      assert s[..|s| - 1] + [s[|s| - 1]] == s;
    }
  }

  /** Sanitizing twice is sanitizing once. */
  lemma {:induction false} SanitizeIdempotent(s: string)
    ensures Sanitize(Sanitize(s)) == Sanitize(s)
  {
    SanitizeKeepsAlnum(Sanitize(s));
  }

  /** A character is dropped exactly when it is not an ASCII letter or digit. */
  lemma {:induction false} SanitizeOne(c: char)
    ensures Sanitize([c]) == (if IsAsciiAlnum(c) then [c] else "")
  {
    assert [c][..0] == "";
  }

  /** `type(c).__name__` of a cell. */
  function CellTypeName(c: Cell): string {
    match c
    case CNone => "NoneType"
    case CNaN => "float"
    case CText(_) => "str"
    case CNum(_) => "int"
    case CBool(_) => "bool"
  }

  /** The per-centre file name; `re.sub` needs a string name. */
  function FileName(name: Cell): (r: Result<string, Exc>)
    ensures r.Success? <==> name.CText?
    ensures r.Success? ==> r.value == Sanitize(name.s) + "_isochrones.geojson"
  {
    match name
    case CText(s) => Success(Sanitize(s) + "_isochrones.geojson")
    case _ => Failure(Exc(TypeError, "expected string or bytes-like object, got '" + CellTypeName(name) + "'"))
  }

  /** The file system: what writing `j` to `path` raises, if anything. */
  type Dump = (string, Json) -> Option<Exc>

  /** `save_geojson_file(path, j)`: every failure is reported as an application error naming what went wrong. */
  function Save(path: string, j: Json, dump: Dump): (r: Result<(), Exc>)
    ensures r.Success? <==> dump(path, j).None?
    ensures r.Failure? ==> r.error.cls == GeoJSONError || r.error.cls == DataProcessingError
  {
    match dump(path, j)
    case None => Success(())
    case Some(e) =>
      if e.cls == JSONDecodeError then Failure(Exc(GeoJSONError, "GeoJSON serialization error: " + e.msg))
      else Failure(Exc(DataProcessingError, "Error saving GeoJSON to " + path + ": " + e.msg))
  }

  /** The files written so far, the (name, result) pairs saved, and the failure that stopped the loop. */
  datatype Saved = Saved(files: seq<(string, Json)>, named: seq<(string, Json)>, error: Option<Exc>)

  /** The loop writing one file per centre, in dictionary order. */
  function SaveEach(data: Dict, dir: string, dump: Dump): (sv: Saved)
    ensures |sv.files| == |sv.named| <= |data|
    ensures sv.error.None? ==> |sv.files| == |data|
  {
    if data == [] then Saved([], [], None)
    else
      var sv := SaveEach(data[..|data| - 1], dir, dump);
      var (k, v) := data[|data| - 1];
      if sv.error.Some? then sv
      else match FileName(k)
        case Failure(e) => Saved(sv.files, sv.named, Some(e))
        case Success(f) =>
          var path := dir + "/" + f;
          match Save(path, v, dump)
          case Failure(e) => Saved(sv.files, sv.named, Some(e))
          case Success(_) => Saved(sv.files + [(path, v)], sv.named + [(k.s, v)], None)
  }

  /** Each centre's file holds its result unchanged, under its sanitized name, in dictionary order. */
  lemma {:induction false} SaveEachFiles(data: Dict, dir: string, dump: Dump)
    ensures var sv := SaveEach(data, dir, dump);
            forall i :: 0 <= i < |sv.files| ==>
              data[i].0.CText? && sv.named[i] == (data[i].0.s, data[i].1) &&
              sv.files[i] == (dir + "/" + Sanitize(data[i].0.s) + "_isochrones.geojson", data[i].1)
  {
    if data != [] {
      var n := |data| - 1;
      SaveEachFiles(data[..n], dir, dump);
      var sv0 := SaveEach(data[..n], dir, dump);
      var sv := SaveEach(data, dir, dump);
      assert forall i :: 0 <= i < n ==> data[..n][i] == data[i];
      if sv0.error.None? && FileName(data[n].0).Success? &&
         Save(dir + "/" + FileName(data[n].0).value, data[n].1, dump).Success? {
        assert sv.files == sv0.files + [(dir + "/" + FileName(data[n].0).value, data[n].1)];
        assert dir + "/" + FileName(data[n].0).value == dir + "/" + Sanitize(data[n].0.s) + "_isochrones.geojson";
        assert sv.named == sv0.named + [(data[n].0.s, data[n].1)];
      } else {
        assert sv.files == sv0.files && sv.named == sv0.named;
      }
    }
  }

  /** `feature["properties"]["name"] = name`. */
  function SetName(f: Json, name: string): (r: Result<Json, Exc>)
    ensures r.Success? ==> f.JObj? && "properties" in f.fields && f.fields["properties"].JObj?
    ensures r.Success? ==> r.value.JObj? && r.value.fields.Keys == f.fields.Keys
    ensures r.Success? ==> forall k :: k in f.fields && k != "properties" ==> r.value.fields[k] == f.fields[k]
    ensures r.Success? ==> var p := r.value.fields["properties"];
                           p.JObj? && p.fields.Keys == f.fields["properties"].fields.Keys + {"name"} &&
                           p.fields["name"] == JStr(name) &&
                           forall k :: k in f.fields["properties"].fields && k != "name" ==> p.fields[k] == f.fields["properties"].fields[k]
    ensures f.JObj? && "properties" in f.fields && f.fields["properties"].JObj? ==> r.Success?
  {
    var props :- At(f, "properties");
    match props
    case JObj(m) => Success(JObj(f.fields["properties" := JObj(m["name" := JStr(name)])]))
    case JArr(_) => Failure(Exc(TypeError, "list indices must be integers or slices, not str"))
    case _ => Failure(Exc(TypeError, "'" + TypeName(props) + "' object does not support item assignment"))
  }

  /** The features of one result, each named after its centre, or the first failure. */
  function NameAll(items: seq<Json>, name: string): (r: Result<seq<Json>, Exc>)
    ensures r.Success? ==> |r.value| == |items|
  {
    if items == [] then Success([])
    else
      match NameAll(items[..|items| - 1], name)
      case Failure(e) => Failure(e)
      case Success(init) =>
        match SetName(items[|items| - 1], name)
        case Failure(e) => Failure(e)
        case Success(last) => Success(init + [last])
  }

  /** Naming succeeds when every feature can be named, and keeps the features' order. */
  lemma {:induction false} NameAllSpec(items: seq<Json>, name: string)
    ensures NameAll(items, name).Success? <==> forall i :: 0 <= i < |items| ==> SetName(items[i], name).Success?
    ensures NameAll(items, name).Success? ==>
              forall i :: 0 <= i < |items| ==> NameAll(items, name).value[i] == SetName(items[i], name).value
  {
    if items != [] {
      var n := |items| - 1;
      NameAllSpec(items[..n], name);
      var init, last := NameAll(items[..n], name), SetName(items[n], name);
      if init.Success? && last.Success? {
        var all := init.value + [last.value];
        assert NameAll(items, name) == Success(all);
        forall i | 0 <= i < |items|
          ensures SetName(items[i], name).Success? && all[i] == SetName(items[i], name).value
        {
          if i < n {
            assert items[..n][i] == items[i];
          }
        }
      } else {
        assert NameAll(items, name).Failure?;
        if init.Failure? {
          var j :| 0 <= j < n && SetName(items[..n][j], name).Failure?;
          assert items[..n][j] == items[j];
        }
      }
    }
  }

  /** `result["features"]`, each named. */
  function NamedFeatures(name: string, result: Json): Result<seq<Json>, Exc> {
    var fs :- At(result, "features");
    var items :- Items(fs);
    NameAll(items, name)
  }

  /** Each centre's named features, or what naming them raised. */
  function Parts(named: seq<(string, Json)>): (ps: seq<Result<seq<Json>, Exc>>)
    ensures |ps| == |named|
  {
    seq(|named|, i requires 0 <= i < |named| => NamedFeatures(named[i].0, named[i].1))
  }

  /** The parts concatenated in order, or the first failure. */
  function Concat(parts: seq<Result<seq<Json>, Exc>>): Result<seq<Json>, Exc> {
    if parts == [] then Success([])
    else Extend(Concat(parts[..|parts| - 1]), parts[|parts| - 1])
  }

  /** The features so far followed by one more centre's, or the first failure. */
  function Extend(acc: Result<seq<Json>, Exc>, more: Result<seq<Json>, Exc>): Result<seq<Json>, Exc> {
    if acc.Failure? then acc
    else if more.Failure? then Failure(more.error)
    else Success(acc.value + more.value)
  }

  /** The features of the combined collection, centre after centre. */
  function Combined(named: seq<(string, Json)>): Result<seq<Json>, Exc> {
    Concat(Parts(named))
  }

  /** Concatenating two runs of parts is concatenating their results. */
  lemma {:induction false} ConcatAppend(a: seq<Result<seq<Json>, Exc>>, b: seq<Result<seq<Json>, Exc>>)
    requires Concat(a).Success? && Concat(b).Success?
    ensures Concat(a + b) == Success(Concat(a).value + Concat(b).value)
    decreases |b|
  {
    if b == [] {
      assert a + b == a;
      assert Concat(a).value + Concat(b).value == Concat(a).value;
    } else {
      var n := |b| - 1;
      assert (a + b)[..|a + b| - 1] == a + b[..n];
      assert (a + b)[|a + b| - 1] == b[n];
      ConcatAppend(a, b[..n]);
      assert (Concat(a).value + Concat(b[..n]).value) + b[n].value == Concat(a).value + (Concat(b[..n]).value + b[n].value);
    }
  }

  /** The combined collection of two batches is the first batch's features followed by the second's. */
  lemma {:induction false} CombinedAppend(a: seq<(string, Json)>, b: seq<(string, Json)>)
    requires Combined(a).Success? && Combined(b).Success?
    ensures Combined(a + b) == Success(Combined(a).value + Combined(b).value)
  {
    PartsAppend(a, b);
    ConcatAppend(Parts(a), Parts(b));
  }

  lemma {:induction false} PartsAppend(a: seq<(string, Json)>, b: seq<(string, Json)>)
    ensures Parts(a + b) == Parts(a) + Parts(b)
  {
    var l, r := Parts(a + b), Parts(a) + Parts(b);
    assert |l| == |r|;
    forall i | 0 <= i < |l|
      ensures l[i] == r[i]
    {
      if i < |a| {
        assert (a + b)[i] == a[i];
      } else {
        assert (a + b)[i] == b[i - |a|];
      }
    }
  }

  /** Each centre contributes its own features, in order, named after it. */
  lemma {:induction false} CombinedSingle(name: string, result: Json)
    ensures Combined([(name, result)]) == NamedFeatures(name, result)
  {
    var ps := Parts([(name, result)]);
    assert ps[..0] == [];
    var r := NamedFeatures(name, result);
    assert Concat(ps) == Extend(Success([]), ps[0]);
    if r.Success? {
      assert [] + r.value == r.value;
    } else {
      assert r == Failure(r.error);
    }
  }

  const CombinedFile := "isochrones.geojson"

  /** The use-local branch of `main`: the files it writes and what it returns or raises. */
  function LocalOutput(data: Dict, dir: string, dump: Dump): (r: (seq<(string, Json)>, Result<(), Exc>))
    ensures r.1.Failure? ==> IsAppError(r.1.error.cls)
  {
    var sv := SaveEach(data, dir, dump);
    if sv.error.Some? then (sv.files, HandleException(Failure(sv.error.value), map[]))
    else match Combined(sv.named)
      case Failure(e) => (sv.files, HandleException(Failure(e), map[]))
      case Success(fs) =>
        var path := dir + "/" + CombinedFile;
        match Save(path, FeatureCollection(fs), dump)
        case Failure(e) => (sv.files, Failure(e))
        case Success(_) => (sv.files + [(path, FeatureCollection(fs))], Success(()))
  }

  /** When everything is saved, every centre has its file and the last file is the combined collection of all their features. */
  lemma {:induction false} LocalOutputComplete(data: Dict, dir: string, dump: Dump)
    requires LocalOutput(data, dir, dump).1.Success?
    ensures var (files, _) := LocalOutput(data, dir, dump);
            var sv := SaveEach(data, dir, dump);
            |files| == |data| + 1 && sv.error.None? && Combined(sv.named).Success? &&
            files[|data|] == (dir + "/" + CombinedFile, FeatureCollection(Combined(sv.named).value)) &&
            forall i :: 0 <= i < |data| ==>
              data[i].0.CText? && files[i] == (dir + "/" + Sanitize(data[i].0.s) + "_isochrones.geojson", data[i].1)
  {
    SaveEachFiles(data, dir, dump);
  }

  /** The loop writing one file per centre. */
  method SaveIndividual(data: Dict, dir: string, dump: Dump) returns (sv: Saved)
    ensures sv == SaveEach(data, dir, dump)
  {
    sv := Saved([], [], None);
    var i := 0;
    while i < |data| && sv.error.None?
      invariant 0 <= i <= |data|
      invariant sv == SaveEach(data[..i], dir, dump)
    {
      assert data[..i + 1][..i] == data[..i];
      var f := FileName(data[i].0);
      if f.Failure? {
        sv := Saved(sv.files, sv.named, Some(f.error));
      } else {
        var path := dir + "/" + f.value;
        var saved := Save(path, data[i].1, dump);
        if saved.Failure? {
          sv := Saved(sv.files, sv.named, Some(saved.error));
        } else {
          sv := Saved(sv.files + [(path, data[i].1)], sv.named + [(data[i].0.s, data[i].1)], None);
        }
      }
      i := i + 1;
    }
    if sv.error.Some? {
      SaveEachStops(data, dir, dump, i);
    } else {
      assert data[..i] == data;
    }
  }

  /** A failure among the earlier centres is the whole result. */
  lemma {:induction false} SaveEachFailed(data: Dict, dir: string, dump: Dump)
    requires data != [] && SaveEach(data[..|data| - 1], dir, dump).error.Some?
    ensures SaveEach(data, dir, dump) == SaveEach(data[..|data| - 1], dir, dump)
  {
  }

  /** Once a file fails, the later centres are not written. */
  lemma {:induction false} SaveEachStops(data: Dict, dir: string, dump: Dump, k: nat)
    requires k <= |data| && SaveEach(data[..k], dir, dump).error.Some?
    ensures SaveEach(data, dir, dump) == SaveEach(data[..k], dir, dump)
    decreases |data| - k
  {
    if k < |data| {
      assert data[..k + 1][..k] == data[..k];
      SaveEachFailed(data[..k + 1], dir, dump);
      SaveEachStops(data, dir, dump, k + 1);
    } else {
      assert data[..k] == data;
    }
  }

  /** The nested loop building the combined collection: each feature gets its centre's name. */
  method Combine(named: seq<(string, Json)>) returns (r: Result<seq<Json>, Exc>)
    ensures r == Combined(named)
  {
    ghost var ps := Parts(named);
    var acc: seq<Json> := [];
    var i := 0;
    while i < |named|
      invariant 0 <= i <= |named|
      invariant Concat(ps[..i]) == Success(acc)
    {
      assert ps[..i + 1][..i] == ps[..i];
      var (name, result) := named[i];
      assert ps[i] == NamedFeatures(name, result);
      var fs := At(result, "features");
      if fs.Failure? {
        ConcatStops(ps, i + 1);
        return Failure(fs.error);
      }
      var items := Items(fs.value);
      if items.Failure? {
        ConcatStops(ps, i + 1);
        return Failure(items.error);
      }
      var more: seq<Json> := [];
      var j := 0;
      while j < |items.value|
        invariant 0 <= j <= |items.value|
        invariant NameAll(items.value[..j], name) == Success(more)
      {
        assert items.value[..j + 1][..j] == items.value[..j];
        var f := SetName(items.value[j], name);
        if f.Failure? {
          NameAllStops(items.value, name, j + 1);
          ConcatStops(ps, i + 1);
          return Failure(f.error);
        }
        more := more + [f.value];
        j := j + 1;
      }
      assert items.value[..j] == items.value;
      acc := acc + more;
      i := i + 1;
    }
    assert ps[..i] == ps;
    r := Success(acc);
  }

  lemma {:induction false} NameAllStops(items: seq<Json>, name: string, k: nat)
    requires k <= |items| && NameAll(items[..k], name).Failure?
    ensures NameAll(items, name) == NameAll(items[..k], name)
    decreases |items|
  {
    if k < |items| {
      var n := |items| - 1;
      assert items[..n][..k] == items[..k];
      NameAllStops(items[..n], name, k);
    } else {
      assert items[..k] == items;
    }
  }

  lemma {:induction false} ConcatStops(parts: seq<Result<seq<Json>, Exc>>, k: nat)
    requires k <= |parts| && Concat(parts[..k]).Failure?
    ensures Concat(parts) == Concat(parts[..k])
    decreases |parts|
  {
    if k < |parts| {
      var n := |parts| - 1;
      assert parts[..n][..k] == parts[..k];
      ConcatStops(parts[..n], k);
    } else {
      assert parts[..k] == parts;
    }
  }

  /**
   * The use-local branch of `main`: one file per centre, then the combined collection;
   * `main`'s decorator reports anything else as an unexpected application error.
   */
  method SaveLocal(data: Dict, dir: string, dump: Dump) returns (files: seq<(string, Json)>, r: Result<(), Exc>)
    ensures (files, r) == LocalOutput(data, dir, dump)
  {
    var sv := SaveIndividual(data, dir, dump);
    files := sv.files;
    if sv.error.Some? {
      r := HandleException(Failure(sv.error.value), map[]);
      return;
    }
    var fs := Combine(sv.named);
    if fs.Failure? {
      r := HandleException(Failure(fs.error), map[]);
      return;
    }
    var path := dir + "/" + CombinedFile;
    r := Save(path, FeatureCollection(fs.value), dump);
    if r.Success? {
      files := files + [(path, FeatureCollection(fs.value))];
    }
  }
}
