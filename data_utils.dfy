/**
 * Loading tables from the store: `load_data` (select everything, optional type cast)
 * and `load_isochrones` (stored rows to GeoJSON features, skipping rows whose geometry
 * cannot be decoded).
 *
 * The store is the oracle `select(table, columns)` returning the response rows or the
 * exception the client raised; the dtype cast and the WKB decoder (`bytes.fromhex`,
 * `wkb.loads` and `mapping`) are oracles too.
 */
module DataUtils {
  import opened Wrappers
  import opened Errors
  import opened Json
  import PyText

  type Select = (string, string) -> Result<seq<Json>, Exc>

  /**
   * `load_data(store, table, dtype)`: every column of `table`; a truthy `dtype` casts the
   * rows, and a cast failure raises `DataProcessingError`. The decorator maps a bare
   * `Exception` from the store to `DataAccessError`.
   */
  function LoadData(select: Select, table: string, dtype: Json, cast: (seq<Json>, Json) -> Result<seq<Json>, string>)
    : (r: Result<seq<Json>, Exc>)
    ensures r.Failure? ==> IsAppError(r.error.cls)
    ensures select(table, "*").Success? && !Truthy(dtype) ==> r == select(table, "*")
  {
    var raw :=
      var data :- select(table, "*");
      if !Truthy(dtype) then Success(data)
      else match cast(data, dtype)
        case Success(rows) => Success(rows)
        case Failure(m) => Failure(Exc(DataProcessingError, "Failed to apply data type conversions: " + m));
    HandleException(raw, map[Exception := DataAccessError])
  }

  /** A store failure carries its original message; only a bare `Exception` becomes `DataAccessError`. */
  lemma {:induction false} LoadDataStoreFailure(select: Select, table: string, dtype: Json, cast: (seq<Json>, Json) -> Result<seq<Json>, string>)
    requires select(table, "*").Failure? && !IsAppError(select(table, "*").error.cls)
    ensures var e := select(table, "*").error;
            LoadData(select, table, dtype, cast)
            == Failure(if e.cls == Exception then Exc(DataAccessError, e.msg) else Exc(AppError, "Unexpected error: " + e.msg))
  {
  }

  /** A failed cast raises `DataProcessingError` with the cast's message. */
  lemma {:induction false} LoadDataCastFailure(select: Select, table: string, dtype: Json, cast: (seq<Json>, Json) -> Result<seq<Json>, string>)
    requires select(table, "*").Success? && Truthy(dtype) && cast(select(table, "*").value, dtype).Failure?
    ensures LoadData(select, table, dtype, cast)
            == Failure(Exc(DataProcessingError, "Failed to apply data type conversions: " + cast(select(table, "*").value, dtype).error))
  {
  }

  /** The isochrones table and the four column names `load_isochrones` reads. */
  datatype IsoColumns = IsoColumns(table: string, name: string, value: string, geometry: string, metadata: string)

  /** A configured name; only string names are modelled. */
  function Name(j: Json): Result<string, Exc> {
    if j.JStr? then Success(j.s) else Failure(Exc(TypeError, "'" + TypeName(j) + "' column name is not a string"))
  }

  /** `tables_config["isochrones"]`, its "table_name" and the "columns" it maps. */
  function IsoConfig(cfg: Json): (r: Result<IsoColumns, Exc>)
    ensures cfg.JObj? && "isochrones" !in cfg.fields ==> r == Failure(Exc(DataValidationError, "Missing isochrones configuration in tables_config"))
  {
    var has :- In("isochrones", cfg);
    if !has then Failure(Exc(DataValidationError, "Missing isochrones configuration in tables_config"))
    else
      var iso :- At(cfg, "isochrones");
      var table :- At(iso, "table_name");
      var columns :- At(iso, "columns");
      var name :- At(columns, "name");
      var value :- At(columns, "value");
      var geometry :- At(columns, "geometry");
      var metadata :- At(columns, "metadata");
      var t :- Name(table);
      var n :- Name(name);
      var v :- Name(value);
      var g :- Name(geometry);
      var m :- Name(metadata);
      Success(IsoColumns(t, n, v, g, m))
  }

  /** The select list `"<name>, <value>, <geometry>, <metadata>"`. */
  function SelectList(c: IsoColumns): string {
    c.name + ", " + c.value + ", " + c.geometry + ", " + c.metadata
  }

  /** `{"name": ..., "value": ..., **metadata}`: the metadata entries win on clashes. */
  function Properties(name: Json, value: Json, metadata: map<string, Json>): Json {
    JObj(map["name" := name, "value" := value] + metadata)
  }

  /**
   * One row of the response: `None` when its geometry cannot be decoded (the row is
   * skipped and counted), else its feature; a failure aborts the whole load.
   */
  function ConvertRow(row: Json, i: nat, c: IsoColumns, wkb: Json -> Result<Json, Exc>): Result<Option<Json>, Exc> {
    var name :- At(row, c.name);
    if c.geometry !in row.fields then Failure(Exc(KeyError, KeyRepr(c.geometry)))
    else match wkb(row.fields[c.geometry])
      case Failure(_) => Success(None)
      case Success(geometry) =>
        var props: Result<Json, Exc> :=
          if c.value !in row.fields then Failure(Exc(KeyError, KeyRepr(c.value)))
          else if c.metadata !in row.fields then Failure(Exc(KeyError, KeyRepr(c.metadata)))
          else if !row.fields[c.metadata].JObj? then
            Failure(Exc(TypeError, NotAMapping(row.fields[c.metadata])))
          else Success(Properties(name, row.fields[c.value], row.fields[c.metadata].fields));
        match props
        case Failure(e) =>
          Failure(Exc(DataProcessingError, "Failed to create feature from row " + PyText.IntToString(i) + ": " + e.msg))
        case Success(p) => Success(Some(Feature(geometry, p)))
  }

  /** The features of `rows` in row order and the number of skipped rows, or the first failure. */
  function ConvertRows(rows: seq<Json>, c: IsoColumns, wkb: Json -> Result<Json, Exc>): (r: Result<(seq<Json>, nat), Exc>)
    ensures r.Success? ==> |r.value.0| + r.value.1 == |rows|
  {
    if |rows| == 0 then Success(([], 0))
    else
      match ConvertRows(rows[..|rows| - 1], c, wkb)
      case Failure(e) => Failure(e)
      case Success(prefix) =>
        match ConvertRow(rows[|rows| - 1], |rows| - 1, c, wkb)
        case Failure(e) => Failure(e)
        case Success(row) =>
          if row.None? then Success((prefix.0, prefix.1 + 1)) else Success((prefix.0 + [row.value], prefix.1))
  }

  const IsochroneMapping: map<ErrClass, ErrClass> :=
    map[ValueError := DataValidationError, KeyError := DataValidationError, Exception := DataAccessError]

  /** What `load_isochrones` computes once the store has answered with `rows`. */
  function FromRows(rows: seq<Json>, c: IsoColumns, wkb: Json -> Result<Json, Exc>): Result<Json, Exc> {
    if rows == [] then Failure(Exc(DataValidationError, "No isochrone data found in table: " + c.table))
    else
      var converted := ConvertRows(rows, c, wkb);
      if converted.Failure? then HandleException(Failure(converted.error), IsochroneMapping)
      else if converted.value.1 > 0 && converted.value.0 == [] then
        Failure(Exc(GeoJSONError, "Failed to process any geometries to GeoJSON format"))
      else Success(FeatureCollection(converted.value.0))
  }

  /** The outcome of `load_isochrones`, as a function of the configuration and the oracles. */
  function LoadIsochronesSpec(select: Select, cfg: Json, wkb: Json -> Result<Json, Exc>): Result<Json, Exc> {
    match IsoConfig(cfg)
    case Failure(e) => HandleException(Failure(e), IsochroneMapping)
    case Success(c) =>
      match select(c.table, SelectList(c))
      case Failure(e) => HandleException(Failure(e), IsochroneMapping)
      case Success(rows) => FromRows(rows, c, wkb)
  }

  /**
   * `load_isochrones(store, tables_config)`: a missing configuration or an empty response
   * raises `DataValidationError`; rows are converted in order, undecodable geometries are
   * skipped and counted; if rows were skipped and none converted, `GeoJSONError`;
   * otherwise the FeatureCollection of the converted rows.
   */
  method LoadIsochrones(select: Select, cfg: Json, wkb: Json -> Result<Json, Exc>) returns (r: Result<Json, Exc>)
    ensures r == LoadIsochronesSpec(select, cfg, wkb)
  {
    var config := IsoConfig(cfg);
    if config.Failure? {
      return HandleException(Failure(config.error), IsochroneMapping);
    }
    var c := config.value;
    var response := select(c.table, SelectList(c));
    if response.Failure? {
      return HandleException(Failure(response.error), IsochroneMapping);
    }
    var rows := response.value;
    if rows == [] {
      return Failure(Exc(DataValidationError, "No isochrone data found in table: " + c.table));
    }
    var features: seq<Json> := [];
    var geometryErrors: nat := 0;
    var i := 0;
    while i < |rows|
      invariant 0 <= i <= |rows|
      invariant ConvertRows(rows[..i], c, wkb) == Success((features, geometryErrors))
    {
      ConvertRowsStep(rows, i, c, wkb, features, geometryErrors);
      var row := ConvertRow(rows[i], i, c, wkb);
      if row.Failure? {
        r := HandleException(Failure(row.error), IsochroneMapping);
        ConvertRowsFailurePropagates(rows, i + 1, c, wkb);
        return;
      }
      if row.value.None? {
        geometryErrors := geometryErrors + 1;
      } else {
        features := features + [row.value.value];
      }
      i := i + 1;
    }
    assert rows[..|rows|] == rows;
    if geometryErrors > 0 && |features| == 0 {
      return Failure(Exc(GeoJSONError, "Failed to process any geometries to GeoJSON format"));
    }
    r := Success(FeatureCollection(features));
  }

  /** Whatever the load raises is an application error. */
  lemma {:induction false} LoadIsochronesRaisesAppErrors(select: Select, cfg: Json, wkb: Json -> Result<Json, Exc>)
    ensures LoadIsochronesSpec(select, cfg, wkb).Failure? ==> IsAppError(LoadIsochronesSpec(select, cfg, wkb).error.cls)
  {
    assert AppTargets(IsochroneMapping);
  }

  /** A configuration without "isochrones", or an empty response, is a `DataValidationError`. */
  lemma {:induction false} LoadIsochronesValidation(select: Select, cfg: Json, wkb: Json -> Result<Json, Exc>)
    ensures cfg.JObj? && "isochrones" !in cfg.fields ==>
              LoadIsochronesSpec(select, cfg, wkb) == Failure(Exc(DataValidationError, "Missing isochrones configuration in tables_config"))
    ensures IsoConfig(cfg).Success? && select(IsoConfig(cfg).value.table, SelectList(IsoConfig(cfg).value)) == Success([]) ==>
              LoadIsochronesSpec(select, cfg, wkb)
              == Failure(Exc(DataValidationError, "No isochrone data found in table: " + IsoConfig(cfg).value.table))
  {
  }

  /**
   * On success the result is a FeatureCollection with one feature per row minus the
   * skipped rows, and at least one feature; when every row was skipped, `GeoJSONError`.
   */
  lemma {:induction false} LoadIsochronesCounts(rows: seq<Json>, c: IsoColumns, wkb: Json -> Result<Json, Exc>)
    requires ConvertRows(rows, c, wkb).Success?
    ensures var (fs, skipped) := ConvertRows(rows, c, wkb).value;
            && |fs| == |rows| - skipped
            && (rows != [] && fs == [] ==> FromRows(rows, c, wkb) == Failure(Exc(GeoJSONError, "Failed to process any geometries to GeoJSON format")))
            && (fs != [] ==> FromRows(rows, c, wkb) == Success(FeatureCollection(fs)))
  {
  }

  /** One more row: the prefix's outcome extended by the row's. */
  lemma {:induction false} ConvertRowsStep(rows: seq<Json>, i: nat, c: IsoColumns, wkb: Json -> Result<Json, Exc>, features: seq<Json>, skipped: nat)
    requires i < |rows| && ConvertRows(rows[..i], c, wkb) == Success((features, skipped))
    ensures var row := ConvertRow(rows[i], i, c, wkb);
            && (row.Failure? ==> ConvertRows(rows[..i + 1], c, wkb) == Failure(row.error))
            && (row.Success? && row.value.None? ==> ConvertRows(rows[..i + 1], c, wkb) == Success((features, skipped + 1)))
            && (row.Success? && row.value.Some? ==> ConvertRows(rows[..i + 1], c, wkb) == Success((features + [row.value.value], skipped)))
  {
    assert rows[..i + 1][..i] == rows[..i];
  }

  /** Once a prefix fails, the whole conversion fails with the same error. */
  lemma {:induction false} ConvertRowsFailurePropagates(rows: seq<Json>, k: nat, c: IsoColumns, wkb: Json -> Result<Json, Exc>)
    requires k <= |rows| && ConvertRows(rows[..k], c, wkb).Failure?
    ensures ConvertRows(rows, c, wkb) == ConvertRows(rows[..k], c, wkb)
    decreases |rows| - k
  {
    if k < |rows| {
      assert rows[..k + 1][..k] == rows[..k];
      ConvertRowsFailurePropagates(rows, k + 1, c, wkb);
    } else {
      assert rows[..k] == rows;
    }
  }

  // ---------------------------------------------------------------------------
  // Properties of the conversion

  /** The rows whose geometry decodes, in order. */
  function Decodable(rows: seq<Json>, c: IsoColumns, wkb: Json -> Result<Json, Exc>): seq<Json> {
    if |rows| == 0 then []
    else
      var last := rows[|rows| - 1];
      Decodable(rows[..|rows| - 1], c, wkb)
      + (if last.JObj? && c.geometry in last.fields && wkb(last.fields[c.geometry]).Success? then [last] else [])
  }

  /** A row that converts to a feature. */
  predicate Convertible(row: Json, c: IsoColumns, wkb: Json -> Result<Json, Exc>) {
    && row.JObj? && c.name in row.fields && c.value in row.fields && c.geometry in row.fields
    && c.metadata in row.fields && row.fields[c.metadata].JObj? && wkb(row.fields[c.geometry]).Success?
  }

  /** The feature of a convertible row: the decoded geometry, and name and value overridden by the metadata. */
  function FeatureOfRow(row: Json, c: IsoColumns, wkb: Json -> Result<Json, Exc>): Json
    requires Convertible(row, c, wkb)
  {
    Feature(wkb(row.fields[c.geometry]).value,
            Properties(row.fields[c.name], row.fields[c.value], row.fields[c.metadata].fields))
  }

  /** On success there is one feature per decodable row, in row order. */
  lemma {:induction false} ConvertRowsFeatures(rows: seq<Json>, c: IsoColumns, wkb: Json -> Result<Json, Exc>)
    requires ConvertRows(rows, c, wkb).Success?
    ensures var fs := ConvertRows(rows, c, wkb).value.0;
            var ds := Decodable(rows, c, wkb);
            |fs| == |ds|
            && forall j :: 0 <= j < |fs| ==> Convertible(ds[j], c, wkb) && fs[j] == FeatureOfRow(ds[j], c, wkb)
  {
    if |rows| > 0 {
      ConvertRowsFeatures(rows[..|rows| - 1], c, wkb);
    }
  }

  /** A metadata key overrides the row's own name or value; other keys keep name and value. */
  lemma {:induction false} MetadataWins(name: Json, value: Json, metadata: map<string, Json>, k: string)
    ensures k in metadata ==> Properties(name, value, metadata).fields[k] == metadata[k]
    ensures "name" !in metadata ==> Properties(name, value, metadata).fields["name"] == name
    ensures "value" !in metadata ==> Properties(name, value, metadata).fields["value"] == value
  {
    assert "name" != "value" by {
      assert |"name"| == 4 && |"value"| == 5;
    }
  }

  /** A row whose metadata is not an object aborts the load with `DataProcessingError` naming the row. */
  lemma {:induction false} BadMetadataAborts(row: Json, i: nat, c: IsoColumns, wkb: Json -> Result<Json, Exc>)
    requires row.JObj? && c.name in row.fields && c.geometry in row.fields && c.value in row.fields && c.metadata in row.fields
    requires wkb(row.fields[c.geometry]).Success? && row.fields[c.metadata] == JNull
    ensures ConvertRow(row, i, c, wkb)
            == Failure(Exc(DataProcessingError, "Failed to create feature from row " + PyText.IntToString(i) + ": " + NotAMapping(JNull)))
  {
  }

  /** The message for a missing metadata mapping names `NoneType`. */
  lemma {:induction false} NotAMappingNone()
    ensures NotAMapping(JNull) == "'NoneType' object is not a mapping"
  {
  }
}
