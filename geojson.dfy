/**
 * GeoJSON (RFC 7946) utilities: structural validation by coordinate nesting depth,
 * feature construction, feature extraction and search, the bounding-box fold, the
 * two merges and batch processing of files.
 *
 * `json.loads` is the oracle `parse` (the text of a `JSONDecodeError` on failure);
 * file reads are the oracle `read`.
 */
module GeoJson {
  import opened Wrappers
  import opened Errors
  import opened Json
  import PyText

  /** The nine type names of RFC 7946. */
  const ValidTypes: set<string> := {
    "Point", "MultiPoint", "LineString", "MultiLineString", "Polygon", "MultiPolygon",
    "GeometryCollection", "Feature", "FeatureCollection"
  }

  function Dve(msg: string): Exc { Exc(DataValidationError, msg) }

  /** The classes the validator's own checks can raise before the decorator maps them. */
  predicate RawError(e: Exc) {
    e.cls in {DataValidationError, TypeError, KeyError}
  }

  /** Coordinate nesting depth of a geometry type; other values are not checked. */
  function Dimension(t: Json): Option<nat> {
    if t == JStr("Point") then Some(0)
    else if t == JStr("LineString") || t == JStr("MultiPoint") then Some(1)
    else if t == JStr("Polygon") || t == JStr("MultiLineString") then Some(2)
    else if t == JStr("MultiPolygon") then Some(3)
    else None
  }

  // ---------------------------------------------------------------------------
  // Reference definition of a valid object

  /** Depth 0 is a list of at least two entries (not inspected); depth d > 0 is a list of depth d-1 values. */
  predicate CoordsOk(c: Json, d: nat)
    decreases d
  {
    c.JArr? && (if d == 0 then |c.items| >= 2 else forall i :: 0 <= i < |c.items| ==> CoordsOk(c.items[i], d - 1))
  }

  predicate GeometryOk(g: Json) {
    && g.JObj? && "coordinates" in g.fields && "type" in g.fields
    && var dim := Dimension(g.fields["type"]);
       dim.Some? ==> CoordsOk(g.fields["coordinates"], dim.value)
  }

  predicate PropertiesOk(f: Json)
    requires f.JObj?
  {
    "properties" in f.fields ==> f.fields["properties"].JNull? || f.fields["properties"].JObj?
  }

  predicate FeatureOk(f: Json) {
    && f.JObj? && "geometry" in f.fields
    && (f.fields["geometry"].JNull? || GeometryOk(f.fields["geometry"]))
    && PropertiesOk(f)
  }

  function TypeOf(d: Json): string
    requires d.JObj? && "type" in d.fields && d.fields["type"].JStr?
  {
    d.fields["type"].s
  }

  /** What `validate_geojson` accepts, stated declaratively. */
  predicate GeoJsonOk(d: Json) {
    && d.JObj? && "type" in d.fields && d.fields["type"].JStr? && TypeOf(d) in ValidTypes
    && (if TypeOf(d) == "Feature" then FeatureOk(d)
        else if TypeOf(d) == "FeatureCollection" then
          "features" in d.fields && d.fields["features"].JArr?
          && forall i :: 0 <= i < |d.fields["features"].items| ==> FeatureOk(d.fields["features"].items[i])
        else if TypeOf(d) == "GeometryCollection" then
          "geometries" in d.fields && d.fields["geometries"].JArr?
          && forall i :: 0 <= i < |d.fields["geometries"].items| ==> GeometryOk(d.fields["geometries"].items[i])
        else GeometryOk(d))
  }

  // ---------------------------------------------------------------------------
  // The checks as the code performs them: first failure wins

  function CoordsMessage(d: nat): string {
    if d == 0 then "Point coordinates must be an array of at least 2 numbers"
    else if d == 1 then "LineString/MultiPoint must be an array of positions"
    else if d == 2 then "Polygon/MultiLineString must be an array of line arrays"
    else "MultiPolygon must be an array of polygon arrays"
  }

  /** `_validate_coordinates(c, d)`. */
  function CheckCoords(c: Json, d: nat): (r: Result<(), Exc>)
    ensures r.Failure? ==> r.error.cls == DataValidationError
    decreases d, 0, 0
  {
    if !c.JArr? || (d == 0 && |c.items| < 2) then Failure(Dve(CoordsMessage(d)))
    else if d == 0 then Success(())
    else CheckEach(c.items, d - 1)
  }

  /** The `for` loop of `_validate_coordinates`: each entry at depth d, in order. */
  function CheckEach(items: seq<Json>, d: nat): (r: Result<(), Exc>)
    ensures r.Failure? ==> r.error.cls == DataValidationError
    decreases d, 1, |items|
  {
    if |items| == 0 then Success(())
    else
      var _ :- CheckCoords(items[0], d);
      CheckEach(items[1..], d)
  }

  /** `_validate_geometry(g)`. */
  function CheckGeometry(g: Json): (r: Result<(), Exc>)
    ensures r.Failure? ==> RawError(r.error) {
    var has :- In("coordinates", g);
    if !has then Failure(Dve("Geometry must have 'coordinates' property"))
    else
      var t :- At(g, "type");
      match Dimension(t)
      case None => Success(())
      case Some(d) => CheckCoords(g.fields["coordinates"], d)
  }

  /** `_validate_feature(f)`. */
  function CheckFeature(f: Json): (r: Result<(), Exc>)
    ensures r.Failure? ==> RawError(r.error) {
    var has :- In("geometry", f);
    if !has then Failure(Dve("Feature must have a 'geometry' property"))
    else
      var g :- At(f, "geometry");
      var _ :- if g.JNull? then Success(())
               else if !g.JObj? then Failure(Dve("Feature geometry must be a GeoJSON geometry object"))
               else CheckGeometry(g);
      if "properties" !in f.fields then Success(())
      else
        var p := f.fields["properties"];
        if !p.JNull? && !p.JObj? then Failure(Dve("Feature properties must be an object")) else Success(())
  }

  function CheckFeatures(fs: seq<Json>): (r: Result<(), Exc>)
    ensures r.Failure? ==> RawError(r.error) {
    if |fs| == 0 then Success(())
    else
      var _ :- CheckFeature(fs[0]);
      CheckFeatures(fs[1..])
  }

  function CheckGeometries(gs: seq<Json>): (r: Result<(), Exc>)
    ensures r.Failure? ==> RawError(r.error) {
    if |gs| == 0 then Success(())
    else
      var _ :- CheckGeometry(gs[0]);
      CheckGeometries(gs[1..])
  }

  /** `_validate_feature_collection(fc)` on a dict. */
  function CheckFeatureCollection(fc: Json): (r: Result<(), Exc>)
    requires fc.JObj?
    ensures r.Failure? ==> RawError(r.error)
  {
    if "features" !in fc.fields then Failure(Dve("FeatureCollection must have a 'features' property"))
    else if !fc.fields["features"].JArr? then Failure(Dve("FeatureCollection 'features' must be an array"))
    else CheckFeatures(fc.fields["features"].items)
  }

  /** `_validate_geometry_collection(gc)` on a dict. */
  function CheckGeometryCollection(gc: Json): (r: Result<(), Exc>)
    requires gc.JObj?
    ensures r.Failure? ==> RawError(r.error)
  {
    if "geometries" !in gc.fields then Failure(Dve("GeometryCollection must have a 'geometries' property"))
    else if !gc.fields["geometries"].JArr? then Failure(Dve("GeometryCollection 'geometries' must be an array"))
    else CheckGeometries(gc.fields["geometries"].items)
  }

  /** The body of `validate_geojson` once the input is a parsed value. */
  function CheckTop(d: Json): (r: Result<Json, Exc>)
    ensures r.Failure? ==> RawError(r.error)
    ensures r.Success? ==> r.value == d && d.JObj? && "type" in d.fields && d.fields["type"].JStr? && TypeOf(d) in ValidTypes
    ensures r.Success? && TypeOf(d) == "FeatureCollection" ==> "features" in d.fields && d.fields["features"].JArr?
  {
    if !d.JObj? then Failure(Dve("GeoJSON must be a JSON object"))
    else if "type" !in d.fields then Failure(Dve("GeoJSON must have a 'type' property"))
    else
      var t := d.fields["type"];
      if t.JArr? || t.JObj? then Failure(Exc(TypeError, "unhashable type: '" + TypeName(t) + "'"))
      else if !(t.JStr? && t.s in ValidTypes) then Failure(Dve("Invalid GeoJSON type: " + Str(t)))
      else
        var _ :- if t.s == "Feature" then CheckFeature(d)
                 else if t.s == "FeatureCollection" then CheckFeatureCollection(d)
                 else if t.s == "GeometryCollection" then CheckGeometryCollection(d)
                 else CheckGeometry(d);
        Success(d)
  }

  const ValidateMapping: map<ErrClass, ErrClass> := map[
    JSONDecodeError := DataValidationError, ValueError := DataValidationError,
    TypeError := DataValidationError, Exception := GeoJSONError]

  /**
   * `validate_geojson(data)`: a string is parsed first; the validated (parsed) object is
   * returned unchanged.
   */
  function ValidateGeoJson(data: Json, parse: string -> Result<Json, string>): (r: Result<Json, Exc>)
    ensures r.Failure? ==> r.error.cls in {DataValidationError, AppError}
    ensures r.Success? ==> var v := r.value; v.JObj? && "type" in v.fields && v.fields["type"].JStr?
    ensures r.Success? && TypeOf(r.value) == "FeatureCollection" ==> "features" in r.value.fields && r.value.fields["features"].JArr?
  {
    var raw := if data.JStr? then
                 match parse(data.s)
                 case Failure(m) => Failure(Dve("Invalid JSON: " + m))
                 case Success(v) => CheckTop(v)
               else CheckTop(data);
    HandleException(raw, ValidateMapping)
  }

  // ---------------------------------------------------------------------------
  // The checks agree with the reference definition

  lemma {:induction false} CheckCoordsSpec(c: Json, d: nat)
    ensures CheckCoords(c, d).Success? <==> CoordsOk(c, d)
    decreases d, 0, 0
  {
    if c.JArr? && d > 0 {
      CheckEachSpec(c.items, d - 1);
    }
  }

  lemma {:induction false} CheckEachSpec(items: seq<Json>, d: nat)
    ensures CheckEach(items, d).Success? <==> forall i :: 0 <= i < |items| ==> CoordsOk(items[i], d)
    decreases d, 1, |items|
  {
    if |items| > 0 {
      CheckCoordsSpec(items[0], d);
      CheckEachSpec(items[1..], d);
      assert forall i :: 1 <= i < |items| ==> items[i] == items[1..][i - 1];
    }
  }

  lemma {:induction false} CheckGeometrySpec(g: Json)
    ensures CheckGeometry(g).Success? <==> GeometryOk(g)
  {
    if g.JObj? && "coordinates" in g.fields && "type" in g.fields {
      var dim := Dimension(g.fields["type"]);
      if dim.Some? {
        CheckCoordsSpec(g.fields["coordinates"], dim.value);
      }
    }
  }

  lemma {:induction false} CheckFeatureSpec(f: Json)
    ensures CheckFeature(f).Success? <==> FeatureOk(f)
  {
    if f.JObj? && "geometry" in f.fields && f.fields["geometry"].JObj? {
      CheckGeometrySpec(f.fields["geometry"]);
    }
  }

  lemma {:induction false} CheckFeaturesSpec(fs: seq<Json>)
    ensures CheckFeatures(fs).Success? <==> forall i :: 0 <= i < |fs| ==> FeatureOk(fs[i])
  {
    if |fs| > 0 {
      CheckFeatureSpec(fs[0]);
      CheckFeaturesSpec(fs[1..]);
      assert forall i :: 1 <= i < |fs| ==> fs[i] == fs[1..][i - 1];
    }
  }

  lemma {:induction false} CheckGeometriesSpec(gs: seq<Json>)
    ensures CheckGeometries(gs).Success? <==> forall i :: 0 <= i < |gs| ==> GeometryOk(gs[i])
  {
    if |gs| > 0 {
      CheckGeometrySpec(gs[0]);
      CheckGeometriesSpec(gs[1..]);
      assert forall i :: 1 <= i < |gs| ==> gs[i] == gs[1..][i - 1];
    }
  }

  lemma {:induction false} CheckTopSpec(d: Json)
    ensures CheckTop(d).Success? <==> GeoJsonOk(d)
    ensures CheckTop(d).Success? ==> CheckTop(d).value == d
  {
    if d.JObj? && "type" in d.fields && d.fields["type"].JStr? && TypeOf(d) in ValidTypes {
      var t := TypeOf(d);
      if t == "Feature" {
        CheckFeatureSpec(d);
      } else if t == "FeatureCollection" {
        if "features" in d.fields && d.fields["features"].JArr? {
          CheckFeaturesSpec(d.fields["features"].items);
        }
      } else if t == "GeometryCollection" {
        if "geometries" in d.fields && d.fields["geometries"].JArr? {
          CheckGeometriesSpec(d.fields["geometries"].items);
        }
      } else {
        CheckGeometrySpec(d);
      }
    }
  }

  /** A non-string input is accepted exactly when it satisfies the reference definition, and comes back unchanged. */
  lemma {:induction false} ValidateSpec(d: Json, parse: string -> Result<Json, string>)
    requires !d.JStr?
    ensures ValidateGeoJson(d, parse).Success? <==> GeoJsonOk(d)
    ensures ValidateGeoJson(d, parse).Success? ==> ValidateGeoJson(d, parse).value == d
  {
    CheckTopSpec(d);
  }

  /** A string input is accepted exactly when it parses to a valid object, which is returned. */
  lemma {:induction false} ValidateStringSpec(text: string, parse: string -> Result<Json, string>)
    ensures ValidateGeoJson(JStr(text), parse).Success? <==> parse(text).Success? && GeoJsonOk(parse(text).value)
    ensures ValidateGeoJson(JStr(text), parse).Success? ==> ValidateGeoJson(JStr(text), parse).value == parse(text).value
    ensures parse(text).Failure? ==> ValidateGeoJson(JStr(text), parse) == Failure(Dve("Invalid JSON: " + parse(text).error))
  {
    if parse(text).Success? {
      CheckTopSpec(parse(text).value);
    }
  }

  /** Validating a validated object again accepts it and returns it unchanged. */
  lemma {:induction false} ValidateIdempotent(d: Json, parse: string -> Result<Json, string>, parse2: string -> Result<Json, string>)
    requires ValidateGeoJson(d, parse).Success?
    ensures ValidateGeoJson(ValidateGeoJson(d, parse).value, parse2) == ValidateGeoJson(d, parse)
  {
    var v := ValidateGeoJson(d, parse).value;
    if d.JStr? {
      ValidateStringSpec(d.s, parse);
    } else {
      ValidateSpec(d, parse);
    }
    ValidateSpec(v, parse2);
  }

  /** The type checks: non-objects, a missing "type" and unknown type names are rejected. */
  lemma {:induction false} ValidateRejects(d: Json, parse: string -> Result<Json, string>)
    requires !d.JStr?
    ensures !d.JObj? ==> ValidateGeoJson(d, parse) == Failure(Dve("GeoJSON must be a JSON object"))
    ensures d.JObj? && "type" !in d.fields ==> ValidateGeoJson(d, parse) == Failure(Dve("GeoJSON must have a 'type' property"))
    ensures d.JObj? && "type" in d.fields && d.fields["type"].JStr? && d.fields["type"].s !in ValidTypes
            ==> ValidateGeoJson(d, parse) == Failure(Dve("Invalid GeoJSON type: " + d.fields["type"].s))
  {
  }

  /** A missing "type" inside a nested geometry is a `KeyError`, which the decorator reports as unexpected. */
  lemma {:induction false} NestedMissingTypeIsUnexpected(parse: string -> Result<Json, string>)
    ensures var g := JObj(map["coordinates" := JArr([JNum(1), JNum(2)])]);
            ValidateGeoJson(Feature(g, JNull), parse) == Failure(Exc(AppError, "Unexpected error: " + KeyRepr("type")))
  {
    var g := JObj(map["coordinates" := JArr([JNum(1), JNum(2)])]);
    var f := Feature(g, JNull);
    assert "type" !in g.fields;
    assert CheckGeometry(g) == Failure(Exc(KeyError, KeyRepr("type")));
    assert f.fields["type"] == JStr("Feature") && f.fields["geometry"] == g && "geometry" in f.fields;
    assert CheckFeature(f) == Failure(Exc(KeyError, KeyRepr("type")));
    assert CheckTop(f) == Failure(Exc(KeyError, KeyRepr("type")));
  }

  // ---------------------------------------------------------------------------
  // Construction

  function Point(lon: int, lat: int): Json {
    JObj(map["type" := JStr("Point"), "coordinates" := JArr([JNum(lon), JNum(lat)])])
  }

  /** `properties or {}`. */
  function PropsOrEmpty(p: Json): Json {
    if Truthy(p) then p else JObj(map[])
  }

  /** `create_point(lon, lat, properties)`. */
  function CreatePoint(lon: int, lat: int, properties: Json): (r: Json)
    ensures r.JObj? && r.fields.Keys == {"type", "geometry", "properties"}
    ensures GeometryOk(r.fields["geometry"]) && r.fields["geometry"].fields["type"] == JStr("Point")
    ensures r.fields["geometry"].fields["coordinates"] == JArr([JNum(lon), JNum(lat)])
    ensures r.fields["properties"] == (if Truthy(properties) then properties else JObj(map[]))
  {
    Feature(Point(lon, lat), PropsOrEmpty(properties))
  }

  /** `create_polygon(coordinates, properties)`: empty or non-list coordinates are rejected. */
  function CreatePolygon(coordinates: Json, properties: Json): (r: Result<Json, Exc>)
    ensures r.Failure? <==> !(coordinates.JArr? && coordinates.items != [])
    ensures r.Failure? ==> r.error == Dve("Polygon coordinates must be a non-empty array")
  {
    if !Truthy(coordinates) || !coordinates.JArr? then Failure(Dve("Polygon coordinates must be a non-empty array"))
    else Success(Feature(JObj(map["type" := JStr("Polygon"), "coordinates" := coordinates]), PropsOrEmpty(properties)))
  }

  /** A created point passes validation unless the properties are a truthy non-object. */
  lemma {:induction false} CreatePointValidates(lon: int, lat: int, properties: Json, parse: string -> Result<Json, string>)
    ensures ValidateGeoJson(CreatePoint(lon, lat, properties), parse).Success? <==> !Truthy(properties) || properties.JObj?
  {
    var f := CreatePoint(lon, lat, properties);
    ValidateSpec(f, parse);
    assert f.fields["geometry"] == Point(lon, lat);
    assert CoordsOk(JArr([JNum(lon), JNum(lat)]), 0);
  }

  /** A created polygon passes validation exactly when its rings are lists of positions and the properties are acceptable. */
  lemma {:induction false} CreatePolygonValidates(coordinates: Json, properties: Json, parse: string -> Result<Json, string>)
    requires CreatePolygon(coordinates, properties).Success?
    ensures ValidateGeoJson(CreatePolygon(coordinates, properties).value, parse).Success?
            <==> CoordsOk(coordinates, 2) && (!Truthy(properties) || properties.JObj?)
  {
    var f := CreatePolygon(coordinates, properties).value;
    ValidateSpec(f, parse);
    assert f.fields["geometry"].fields["type"] == JStr("Polygon");
  }

  // ---------------------------------------------------------------------------
  // Extraction and search

  /**
   * `extract_features(g)`: a FeatureCollection's own "features" value, a Feature as a
   * singleton, anything else wrapped in a Feature with empty properties.
   */
  function ExtractFeatures(g: Json): (r: Result<Json, Exc>)
    ensures r.Failure? ==> IsAppError(r.error.cls)
  {
    var raw :=
      var _ :- GetOr(g, "type", JNull);
      var t :- At(g, "type");
      if t == JStr("FeatureCollection") then CollectionFeatures(g)
      else if t == JStr("Feature") then Success(JArr([g]))
      else Success(JArr([Feature(g, JObj(map[]))]));
    HandleException(raw, map[Exception := DataProcessingError])
  }

  /** A FeatureCollection's "features", which the log line passes to `len`. */
  function CollectionFeatures(g: Json): Result<Json, Exc> {
    var fs :- At(g, "features");
    var _ :- Len(fs);
    Success(fs)
  }

  /** `len(features)` succeeds exactly on a list, a string or an object. */
  lemma {:induction false} CollectionFeaturesLength(g: Json)
    requires g.JObj? && "features" in g.fields
    ensures var fs := g.fields["features"];
            && (CollectionFeatures(g).Success? <==> fs.JArr? || fs.JStr? || fs.JObj?)
            && (CollectionFeatures(g).Success? ==> CollectionFeatures(g).value == fs)
            && (CollectionFeatures(g).Failure? ==> CollectionFeatures(g).error == NoLen(fs))
  {
    assert At(g, "features") == Success(g.fields["features"]);
  }

  /** On a FeatureCollection, extraction is the decorated "features" lookup. */
  lemma {:induction false} ExtractCollection(g: Json)
    requires g.JObj? && "type" in g.fields && g.fields["type"] == JStr("FeatureCollection")
    ensures ExtractFeatures(g) == HandleException(CollectionFeatures(g), map[Exception := DataProcessingError])
  {
    assert GetOr(g, "type", JNull).Success?;
    assert At(g, "type") == Success(JStr("FeatureCollection"));
  }

  /**
   * A FeatureCollection's "features" must have a length: null, a number or a boolean raises
   * `TypeError` in the log line, which the decorator reports as an unexpected error.
   */
  lemma {:induction false} ExtractFeaturesNeedsLength(g: Json)
    requires g.JObj? && "type" in g.fields && g.fields["type"] == JStr("FeatureCollection")
    requires "features" in g.fields
    ensures var fs := g.fields["features"];
            && (ExtractFeatures(g).Success? <==> fs.JArr? || fs.JStr? || fs.JObj?)
            && (ExtractFeatures(g).Success? ==> ExtractFeatures(g).value == fs)
            && (ExtractFeatures(g).Failure? ==>
                  ExtractFeatures(g).error == Exc(AppError, "Unexpected error: " + NoLen(g.fields["features"]).msg))
  {
    ExtractCollection(g);
    CollectionFeaturesLength(g);
    var fs := g.fields["features"];
    if !(fs.JArr? || fs.JStr? || fs.JObj?) {
      HandleExceptionExactType<Json>(NoLen(fs), map[Exception := DataProcessingError]);
    }
  }

  /** On valid input other than a GeometryCollection, extraction yields a list of valid features. */
  lemma {:induction false} ExtractFeaturesOfValid(g: Json, parse: string -> Result<Json, string>)
    requires GeoJsonOk(g) && TypeOf(g) != "GeometryCollection"
    ensures ExtractFeatures(g).Success? && ExtractFeatures(g).value.JArr?
    ensures forall i :: 0 <= i < |ExtractFeatures(g).value.items| ==> FeatureOk(ExtractFeatures(g).value.items[i])
    ensures TypeOf(g) == "FeatureCollection" ==> ExtractFeatures(g).value == g.fields["features"]
    ensures TypeOf(g) == "Feature" ==> ExtractFeatures(g).value == JArr([g])
  {
    var t := TypeOf(g);
    if t != "FeatureCollection" && t != "Feature" {
      var f := Feature(g, JObj(map[]));
      assert f.fields["geometry"] == g;
      assert FeatureOk(f);
    }
  }

  /**
   * A GeometryCollection is wrapped as the geometry of a Feature, and that Feature does not
   * pass `validate_geojson`, because a Feature's geometry must carry "coordinates".
   */
  lemma {:induction false} WrappedGeometryCollectionRejected(parse: string -> Result<Json, string>)
    ensures var gc := JObj(map["type" := JStr("GeometryCollection"), "geometries" := JArr([])]);
            GeoJsonOk(gc) && ExtractFeatures(gc).Success?
            && ValidateGeoJson(ExtractFeatures(gc).value.items[0], parse).Failure?
  {
    var gc := JObj(map["type" := JStr("GeometryCollection"), "geometries" := JArr([])]);
    var f := Feature(gc, JObj(map[]));
    ValidateSpec(f, parse);
    assert f.fields["geometry"] == gc;
    assert !GeometryOk(gc);
  }

  /** The iteration over "features": a list is iterated, anything else is an error here. */
  function FeatureList(g: Json): (r: Result<seq<Json>, Exc>) {
    var fs :- ExtractFeatures(g);
    Items(fs)
  }

  /** `feature.get("properties") and feature["properties"].get(key) == value`. */
  function Matches(f: Json, key: string, value: Json): Result<bool, Exc> {
    var p :- GetOr(f, "properties", JNull);
    if !Truthy(p) then Success(false)
    else
      var v :- GetOr(p, key, JNull);
      Success(PyEq(v, value))
  }

  /** A feature that certainly matches: an object whose non-empty properties map `key` to `value`. */
  predicate HasProperty(f: Json, key: string, value: Json) {
    && f.JObj? && "properties" in f.fields
    && var p := f.fields["properties"];
       p.JObj? && p.fields != map[] && PyEq(if key in p.fields then p.fields[key] else JNull, value)
  }

  function FilterMatching(fs: seq<Json>, key: string, value: Json): (r: Result<seq<Json>, Exc>)
    ensures r.Success? ==> |r.value| <= |fs|
  {
    if |fs| == 0 then Success([])
    else
      match Matches(fs[0], key, value)
      case Failure(e) => Failure(e)
      case Success(m) =>
        match FilterMatching(fs[1..], key, value)
        case Failure(e) => Failure(e)
        case Success(rest) => Success(if m then [fs[0]] + rest else rest)
  }

  /** `find_features_by_property(g, key, value)`. */
  function FindFeaturesByProperty(g: Json, key: string, value: Json): (r: Result<seq<Json>, Exc>)
    ensures r.Failure? ==> IsAppError(r.error.cls)
  {
    var raw :=
      var fs :- FeatureList(g);
      FilterMatching(fs, key, value);
    HandleException(raw, map[KeyError := DataValidationError, Exception := DataProcessingError])
  }

  /** The features that have the property, in order and with repeats: the list comprehension's filter. */
  function WithProperty(fs: seq<Json>, key: string, value: Json): (r: seq<Json>)
    ensures |r| <= |fs|
  {
    if |fs| == 0 then []
    else (if HasProperty(fs[0], key, value) then [fs[0]] else []) + WithProperty(fs[1..], key, value)
  }

  /** On a well-formed feature the test cannot fail, and it holds exactly when the feature has the property. */
  lemma MatchesOk(f: Json, key: string, value: Json)
    requires FeatureOk(f)
    ensures Matches(f, key, value) == Success(HasProperty(f, key, value))
  {
  }

  /** Over features that are objects with object-or-null properties the search is the filter. */
  lemma {:induction false} FilterMatchingFilters(fs: seq<Json>, key: string, value: Json)
    requires forall i :: 0 <= i < |fs| ==> FeatureOk(fs[i])
    ensures FilterMatching(fs, key, value) == Success(WithProperty(fs, key, value))
  {
    if |fs| > 0 {
      assert forall i :: 1 <= i < |fs| ==> fs[i] == fs[1..][i - 1];
      FilterMatchingFilters(fs[1..], key, value);
      MatchesOk(fs[0], key, value);
      var rest := WithProperty(fs[1..], key, value);
      assert [] + rest == rest;
      assert WithProperty(fs, key, value) == (if HasProperty(fs[0], key, value) then [fs[0]] else []) + rest;
    }
  }

  /** The filter keeps exactly the features that have the property. */
  lemma {:induction false} WithPropertyMembers(fs: seq<Json>, key: string, value: Json)
    ensures forall f :: f in WithProperty(fs, key, value) ==> f in fs && HasProperty(f, key, value)
    ensures forall f :: f in fs && HasProperty(f, key, value) ==> f in WithProperty(fs, key, value)
  {
    if |fs| > 0 {
      WithPropertyMembers(fs[1..], key, value);
      forall x | x in fs ensures x == fs[0] || x in fs[1..] {
        var i :| 0 <= i < |fs| && fs[i] == x;
        if i > 0 { assert fs[1..][i - 1] == x; }
      }
    }
  }

  /**
   * Over features that are objects with object-or-null properties the search cannot fail, and it
   * keeps exactly the features that have the property, in order and with repeats.
   */
  lemma {:induction false} FilterMatchingSpec(fs: seq<Json>, key: string, value: Json)
    requires forall i :: 0 <= i < |fs| ==> FeatureOk(fs[i])
    ensures FilterMatching(fs, key, value).Success?
    ensures var r := FilterMatching(fs, key, value).value;
            && r == WithProperty(fs, key, value)
            && (forall f :: f in r ==> f in fs && HasProperty(f, key, value))
            && (forall f :: f in fs && HasProperty(f, key, value) ==> f in r)
  {
    FilterMatchingFilters(fs, key, value);
    WithPropertyMembers(fs, key, value);
  }

  /**
   * On valid input other than a GeometryCollection the search succeeds with exactly the
   * extracted features that have the property, in their order.
   */
  lemma {:induction false} FindFeaturesByPropertySpec(g: Json, key: string, value: Json, parse: string -> Result<Json, string>)
    requires GeoJsonOk(g) && TypeOf(g) != "GeometryCollection"
    ensures FeatureList(g).Success?
    ensures FindFeaturesByProperty(g, key, value) == Success(WithProperty(FeatureList(g).value, key, value))
  {
    ExtractFeaturesOfValid(g, parse);
    var fs := ExtractFeatures(g).value.items;
    assert FeatureList(g) == Success(fs);
    FilterMatchingSpec(fs, key, value);
  }

  // ---------------------------------------------------------------------------
  // Bounding box

  /** A coordinate bound: the infinities are the initial values of the fold. */
  datatype Bound = NegInf | Fin(v: int) | PosInf

  function Num(j: Json): Option<int> {
    if j.JNum? || j.JBool? then Some(NumVal(j)) else None
  }

  /** The positions under `coords` at depth d, in document order. */
  function PositionsAt(c: Json, d: nat): (r: Result<seq<(int, int)>, Exc>)
    ensures d == 0 && r.Success? ==> |r.value| == 1
    decreases d, 0, 0
  {
    var items :- Items(c);
    if d == 0 then
      if |items| < 2 then Failure(Exc(IndexError, "list index out of range"))
      else if Num(items[0]).None? || Num(items[1]).None? then
        Failure(Exc(TypeError, "'<' not supported between instances of '" + TypeName(if Num(items[0]).None? then items[0] else items[1]) + "' and 'float'"))
      else Success([(Num(items[0]).value, Num(items[1]).value)])
    else PositionsEach(items, d - 1)
  }

  function PositionsEach(items: seq<Json>, d: nat): Result<seq<(int, int)>, Exc>
    decreases d, 1, |items|
  {
    if |items| == 0 then Success([])
    else
      match PositionsAt(items[0], d)
      case Failure(e) => Failure(e)
      case Success(first) =>
        match PositionsEach(items[1..], d)
        case Failure(e) => Failure(e)
        case Success(rest) => Success(first + rest)
  }

  /** The positions of one feature; a null geometry has none, an unknown type has none. */
  function FeaturePositions(f: Json): Result<seq<(int, int)>, Exc> {
    var g :- At(f, "geometry");
    if g.JNull? then Success([])
    else
      var t :- At(g, "type");
      var c :- At(g, "coordinates");
      match Dimension(t)
      case None => Success([])
      case Some(d) => PositionsAt(c, d)
  }

  function AllPositions(fs: seq<Json>): Result<seq<(int, int)>, Exc> {
    if |fs| == 0 then Success([])
    else
      match FeaturePositions(fs[0])
      case Failure(e) => Failure(e)
      case Success(first) =>
        match AllPositions(fs[1..])
        case Failure(e) => Failure(e)
        case Success(rest) => Success(first + rest)
  }

  /** The positions `get_bbox` folds over, in the order it visits them. */
  function BBoxPositions(g: Json): Result<seq<(int, int)>, Exc> {
    var fs :- FeatureList(g);
    AllPositions(fs)
  }

  function Min(a: Bound, x: int): Bound {
    match a
    case PosInf => Fin(x)
    case Fin(v) => if x < v then Fin(x) else a
    case NegInf => a
  }

  function Max(a: Bound, x: int): Bound {
    match a
    case NegInf => Fin(x)
    case Fin(v) => if x > v then Fin(x) else a
    case PosInf => a
  }

  /** `b` is the least of `xs`, or +inf when `xs` is empty. */
  ghost predicate IsLeast(b: Bound, xs: seq<int>) {
    (|xs| == 0 ==> b == PosInf)
    && (|xs| > 0 ==> b.Fin? && b.v in xs && forall x :: x in xs ==> b.v <= x)
  }

  /** `b` is the greatest of `xs`, or -inf when `xs` is empty. */
  ghost predicate IsGreatest(b: Bound, xs: seq<int>) {
    (|xs| == 0 ==> b == NegInf)
    && (|xs| > 0 ==> b.Fin? && b.v in xs && forall x :: x in xs ==> x <= b.v)
  }

  lemma {:induction false} MinStep(b: Bound, xs: seq<int>, x: int)
    requires IsLeast(b, xs)
    ensures IsLeast(Min(b, x), xs + [x])
  {
    assert forall y :: y in xs + [x] <==> y in xs || y == x;
  }

  lemma {:induction false} MaxStep(b: Bound, xs: seq<int>, x: int)
    requires IsGreatest(b, xs)
    ensures IsGreatest(Max(b, x), xs + [x])
  {
    assert forall y :: y in xs + [x] <==> y in xs || y == x;
  }

  function Lons(ps: seq<(int, int)>): (r: seq<int>)
    ensures |r| == |ps| && forall i :: 0 <= i < |ps| ==> r[i] == ps[i].0
  {
    if |ps| == 0 then [] else Lons(ps[..|ps| - 1]) + [ps[|ps| - 1].0]
  }

  function Lats(ps: seq<(int, int)>): (r: seq<int>)
    ensures |r| == |ps| && forall i :: 0 <= i < |ps| ==> r[i] == ps[i].1
  {
    if |ps| == 0 then [] else Lats(ps[..|ps| - 1]) + [ps[|ps| - 1].1]
  }

  /**
   * `get_bbox(g)`: `[min lon, min lat, max lon, max lat]` over every position of every
   * non-null geometry, starting from `[inf, inf, -inf, -inf]`.
   */
  method GetBBox(g: Json) returns (r: Result<seq<Bound>, Exc>)
    ensures r.Failure? <==> BBoxPositions(g).Failure?
    ensures r.Failure? ==> IsAppError(r.error.cls)
    ensures r.Success? ==>
      var ps := BBoxPositions(g).value;
      |r.value| == 4
      && IsLeast(r.value[0], Lons(ps)) && IsLeast(r.value[1], Lats(ps))
      && IsGreatest(r.value[2], Lons(ps)) && IsGreatest(r.value[3], Lats(ps))
  {
    var found := BBoxPositions(g);
    if found.Failure? {
      r := HandleException(Failure(found.error), map[ValueError := DataValidationError, Exception := DataProcessingError]);
      return;
    }
    var ps := found.value;
    var minLon, minLat, maxLon, maxLat := PosInf, PosInf, NegInf, NegInf;
    var i := 0;
    while i < |ps|
      invariant 0 <= i <= |ps|
      invariant IsLeast(minLon, Lons(ps[..i])) && IsLeast(minLat, Lats(ps[..i]))
      invariant IsGreatest(maxLon, Lons(ps[..i])) && IsGreatest(maxLat, Lats(ps[..i]))
    {
      assert ps[..i + 1][..i] == ps[..i];
      assert Lons(ps[..i + 1]) == Lons(ps[..i]) + [ps[i].0];
      assert Lats(ps[..i + 1]) == Lats(ps[..i]) + [ps[i].1];
      MinStep(minLon, Lons(ps[..i]), ps[i].0);
      MinStep(minLat, Lats(ps[..i]), ps[i].1);
      MaxStep(maxLon, Lons(ps[..i]), ps[i].0);
      MaxStep(maxLat, Lats(ps[..i]), ps[i].1);
      minLon := Min(minLon, ps[i].0);
      minLat := Min(minLat, ps[i].1);
      maxLon := Max(maxLon, ps[i].0);
      maxLat := Max(maxLat, ps[i].1);
      i := i + 1;
    }
    assert ps[..|ps|] == ps;
    r := Success([minLon, minLat, maxLon, maxLat]);
  }

  // ---------------------------------------------------------------------------
  // Merging

  /**
   * `merge_feature_collections(fc1, fc2)`: both must be FeatureCollections (checked on
   * "type" only); the features are concatenated without validation.
   */
  function MergeFeatureCollections(fc1: Json, fc2: Json): (r: Result<Json, Exc>)
    ensures r.Failure? ==> IsAppError(r.error.cls)
  {
    var raw :=
      var t1 :- At(fc1, "type");
      var t2 :- if t1 != JStr("FeatureCollection") then Success(JNull) else At(fc2, "type");
      if t1 != JStr("FeatureCollection") || t2 != JStr("FeatureCollection") then
        Failure(Dve("Both inputs must be FeatureCollections"))
      else
        var f1 :- At(fc1, "features");
        var f2 :- At(fc2, "features");
        var a :- Items(f1);
        var b :- Items(f2);
        Success(FeatureCollection(a + b));
    HandleException(raw, map[ValueError := DataValidationError, Exception := DataProcessingError])
  }

  lemma {:induction false} MergeFeatureCollectionsSpec(fc1: Json, fc2: Json)
    requires fc1.JObj? && fc2.JObj? && "type" in fc1.fields && "type" in fc2.fields
    ensures fc1.fields["type"] != JStr("FeatureCollection") || fc2.fields["type"] != JStr("FeatureCollection")
            ==> MergeFeatureCollections(fc1, fc2) == Failure(Dve("Both inputs must be FeatureCollections"))
    ensures fc1.fields["type"] == JStr("FeatureCollection") && fc2.fields["type"] == JStr("FeatureCollection")
            && "features" in fc1.fields && "features" in fc2.fields
            && fc1.fields["features"].JArr? && fc2.fields["features"].JArr?
            ==> MergeFeatureCollections(fc1, fc2) == Success(FeatureCollection(fc1.fields["features"].items + fc2.fields["features"].items))
  {
  }

  /** What one validated object adds to a merge: its features, itself, or itself wrapped. */
  function Contribution(v: Json): seq<Json>
    requires v.JObj? && "type" in v.fields
  {
    var t := v.fields["type"];
    if t == JStr("FeatureCollection") then
      (if "features" in v.fields && v.fields["features"].JArr? then v.fields["features"].items else [])
    else if t == JStr("Feature") then [v]
    else [Feature(v, JObj(map[]))]
  }

  /** The merged features of `objs`, or the first validation failure (wrapped by the per-object context). */
  function MergedFeatures(objs: seq<Json>, parse: string -> Result<Json, string>, offset: nat): Result<seq<Json>, Exc> {
    if |objs| == 0 then Success([])
    else
      match ValidateAt(objs[0], parse, offset)
      case Failure(e) => Failure(e)
      case Success(v) =>
        match MergedFeatures(objs[1..], parse, offset + 1)
        case Failure(e) => Failure(e)
        case Success(rest) =>
          assert v.JObj? && "type" in v.fields;
          Success(Contribution(v) + rest)
  }

  /** `validate_geojson` inside `ExceptionContext("Validating GeoJSON object i", DataValidationError)`. */
  function ValidateAt(obj: Json, parse: string -> Result<Json, string>, i: nat): Result<Json, Exc> {
    ExceptionContext("Validating GeoJSON object " + PyText.IntToString(i), DataValidationError, ValidateGeoJson(obj, parse))
  }

  /** The context never rewrites what the decorated validator raises, and what passes is valid. */
  lemma {:induction false} ValidateAtSpec(obj: Json, parse: string -> Result<Json, string>, i: nat)
    ensures ValidateAt(obj, parse, i) == ValidateGeoJson(obj, parse)
    ensures ValidateAt(obj, parse, i).Success? ==> GeoJsonOk(ValidateAt(obj, parse, i).value)
  {
    if obj.JStr? {
      ValidateStringSpec(obj.s, parse);
    } else {
      ValidateSpec(obj, parse);
    }
  }

  /** A known prefix in front of a merge that may still fail. */
  function Prepend(prefix: seq<Json>, r: Result<seq<Json>, Exc>): Result<seq<Json>, Exc> {
    if r.Success? then Success(prefix + r.value) else r
  }

  lemma {:induction false} PrependEmpty(r: Result<seq<Json>, Exc>)
    ensures Prepend([], r) == r
  {
    if r.Success? {
      assert [] + r.value == r.value;
    }
  }

  lemma {:induction false} PrependTwice(a: seq<Json>, b: seq<Json>, r: Result<seq<Json>, Exc>)
    ensures Prepend(a, Prepend(b, r)) == Prepend(a + b, r)
  {
    if r.Success? {
      assert a + (b + r.value) == (a + b) + r.value;
    }
  }

  /** One step of the merge: the object at `i` is validated, then the rest follows. */
  lemma {:induction false} MergedFeaturesStep(objs: seq<Json>, parse: string -> Result<Json, string>, i: nat)
    requires i < |objs|
    ensures ValidateAt(objs[i], parse, i).Failure? ==>
              MergedFeatures(objs[i..], parse, i) == Failure(ValidateAt(objs[i], parse, i).error)
    ensures ValidateAt(objs[i], parse, i).Success? ==>
              MergedFeatures(objs[i..], parse, i)
              == Prepend(Contribution(ValidateAt(objs[i], parse, i).value), MergedFeatures(objs[i + 1..], parse, i + 1))
  {
    assert objs[i..][0] == objs[i];
    assert objs[i..][1..] == objs[i + 1..];
  }

  /**
   * `merge_geojson(objs)`: every object is validated in turn (the first failure aborts);
   * collections contribute their features, Features themselves, geometries a wrapping
   * Feature, all in input order.
   */
  method MergeGeoJson(objs: seq<Json>, parse: string -> Result<Json, string>) returns (r: Result<Json, Exc>)
    ensures MergedFeatures(objs, parse, 0).Success? ==> r == Success(FeatureCollection(MergedFeatures(objs, parse, 0).value))
    ensures MergedFeatures(objs, parse, 0).Failure? ==> r == Failure(MergedFeatures(objs, parse, 0).error)
  {
    var features: seq<Json> := [];
    var i := 0;
    assert objs[0..] == objs;
    PrependEmpty(MergedFeatures(objs, parse, 0));
    while i < |objs|
      invariant 0 <= i <= |objs|
      invariant MergedFeatures(objs, parse, 0) == Prepend(features, MergedFeatures(objs[i..], parse, i))
    {
      MergedFeaturesStep(objs, parse, i);
      var validated := ValidateAt(objs[i], parse, i);
      if validated.Failure? {
        r := HandleException(Failure(validated.error), map[ValueError := DataValidationError, Exception := DataProcessingError]);
        return;
      }
      var v := validated.value;
      var contribution: seq<Json>;
      if v.fields["type"] == JStr("FeatureCollection") {
        contribution := v.fields["features"].items;
      } else if v.fields["type"] == JStr("Feature") {
        contribution := [v];
      } else {
        contribution := [Feature(v, JObj(map[]))];
      }
      assert contribution == Contribution(v);
      PrependTwice(features, contribution, MergedFeatures(objs[i + 1..], parse, i + 1));
      features := features + contribution;
      i := i + 1;
    }
    assert objs[|objs|..] == [];
    assert features + [] == features;
    r := Success(FeatureCollection(features));
  }

  /** Merged features are valid features when no input is a GeometryCollection. */
  lemma {:induction false} MergedFeaturesValid(objs: seq<Json>, parse: string -> Result<Json, string>, offset: nat)
    requires MergedFeatures(objs, parse, offset).Success?
    requires forall i :: 0 <= i < |objs| ==> !IsGeometryCollection(objs[i], parse)
    ensures forall f :: f in MergedFeatures(objs, parse, offset).value ==> FeatureOk(f)
  {
    if |objs| > 0 {
      var v := ValidateAt(objs[0], parse, offset).value;
      ValidateAtSpec(objs[0], parse, offset);
      assert !IsGeometryCollection(objs[0], parse);
      MergedFeaturesValid(objs[1..], parse, offset + 1);
      if TypeOf(v) != "FeatureCollection" && TypeOf(v) != "Feature" {
        assert Feature(v, JObj(map[])).fields["geometry"] == v;
      }
    }
  }

  /** The object validates to a GeometryCollection. */
  predicate IsGeometryCollection(obj: Json, parse: string -> Result<Json, string>) {
    var v := ValidateGeoJson(obj, parse);
    v.Success? && v.value.JObj? && "type" in v.value.fields && v.value.fields["type"] == JStr("GeometryCollection")
  }

  /** What one file of a batch yields: its validated object, or nothing when it cannot be read or validated. */
  function Survive(file: string, read: string -> Option<string>, parse: string -> Result<Json, string>): (r: seq<Json>)
    ensures |r| <= 1
  {
    var content := read(file);
    if content.None? then []
    else
      var v := ValidateGeoJson(JStr(content.value), parse);
      if v.Failure? then [] else [v.value]
  }

  /** The objects from the files of a batch that can be read and validated, in file order. */
  function Survivors(files: seq<string>, read: string -> Option<string>, parse: string -> Result<Json, string>): (r: seq<Json>)
    ensures |r| <= |files|
  {
    if |files| == 0 then [] else Survivors(files[..|files| - 1], read, parse) + Survive(files[|files| - 1], read, parse)
  }

  /** Every survivor is a valid GeoJSON object. */
  lemma {:induction false} SurvivorsValid(files: seq<string>, read: string -> Option<string>, parse: string -> Result<Json, string>)
    ensures forall v :: v in Survivors(files, read, parse) ==> GeoJsonOk(v)
  {
    if |files| > 0 {
      SurvivorsValid(files[..|files| - 1], read, parse);
      var content := read(files[|files| - 1]);
      if content.Some? {
        ValidateStringSpec(content.value, parse);
      }
    }
  }

  /** Validated dicts validate again, so merging the survivors cannot fail. */
  lemma {:induction false} MergeOfValidSucceeds(objs: seq<Json>, parse: string -> Result<Json, string>, offset: nat)
    requires forall v :: v in objs ==> GeoJsonOk(v)
    ensures MergedFeatures(objs, parse, offset).Success?
  {
    if |objs| > 0 {
      assert objs[0] in objs;
      ValidateSpec(objs[0], parse);
      ValidateAtSpec(objs[0], parse, offset);
      assert forall v :: v in objs[1..] ==> v in objs;
      MergeOfValidSucceeds(objs[1..], parse, offset + 1);
    }
  }

  /** One more file of the batch adds its survivor, if any, at the end. */
  lemma {:induction false} SurvivorsStep(files: seq<string>, i: nat, read: string -> Option<string>, parse: string -> Result<Json, string>)
    requires i < |files|
    ensures Survivors(files[..i + 1], read, parse) == Survivors(files[..i], read, parse) + Survive(files[i], read, parse)
  {
    assert files[..i + 1][..i] == files[..i];
  }

  /** One pass of the batch loop: read the file, validate it, keep it when both succeed. */
  method ReadOne(file: string, read: string -> Option<string>, parse: string -> Result<Json, string>) returns (kept: seq<Json>)
    ensures kept == Survive(file, read, parse)
  {
    kept := [];
    var content := read(file);
    if content.Some? {
      var v := ValidateGeoJson(JStr(content.value), parse);
      if v.Success? {
        kept := [v.value];
      }
    }
  }

  /**
   * The loop of `process_geojson_batch`: each file is read and validated; a file that
   * cannot be read or validated is skipped.
   */
  method ReadAndValidate(files: seq<string>, read: string -> Option<string>, parse: string -> Result<Json, string>)
    returns (allGeoJson: seq<Json>)
    ensures allGeoJson == Survivors(files, read, parse)
  {
    allGeoJson := [];
    var i := 0;
    while i < |files|
      invariant 0 <= i <= |files|
      invariant allGeoJson == Survivors(files[..i], read, parse)
    {
      SurvivorsStep(files, i, read, parse);
      var kept := ReadOne(files[i], read, parse);
      allGeoJson := allGeoJson + kept;
      i := i + 1;
    }
    assert files[..|files|] == files;
  }

  /**
   * `process_geojson_batch(files, output_format)`: unreadable or invalid files are skipped;
   * with no survivors the result is an empty FeatureCollection (whatever the format);
   * otherwise the survivors are merged, which cannot fail, and the format "features"
   * returns only the list.
   */
  method ProcessGeoJsonBatch(files: seq<string>, read: string -> Option<string>, parse: string -> Result<Json, string>,
                             outputFormat: string) returns (out: Json)
    ensures var all := Survivors(files, read, parse);
            && (all == [] ==> out == FeatureCollection([]))
            && (all != [] ==> MergedFeatures(all, parse, 0).Success?)
            && (all != [] && outputFormat == "features" ==>
                  MergedFeatures(all, parse, 0).Success? && out == JArr(MergedFeatures(all, parse, 0).value))
            && (all != [] && outputFormat != "features" ==>
                  MergedFeatures(all, parse, 0).Success? && out == FeatureCollection(MergedFeatures(all, parse, 0).value))
  {
    var allGeoJson := ReadAndValidate(files, read, parse);
    if allGeoJson == [] {
      return FeatureCollection([]);
    }
    SurvivorsValid(files, read, parse);
    MergeOfValidSucceeds(allGeoJson, parse, 0);
    var merged := MergeGeoJson(allGeoJson, parse);
    if outputFormat == "features" {
      out := JArr(merged.value.fields["features"].items);
    } else {
      out := merged.value;
    }
  }
}
