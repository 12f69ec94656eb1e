/**
 * The address resolver of `src/geocode.py`: the three-stage fallback of `geocode`
 * (full address, then location name, then city/state/zip), the in-place reconciliation
 * of a table by `geocode_dataset`, and the decisions of the CSV and database drivers
 * about what is read and what is written back.
 *
 * The geocoding service is the oracle `geo(query)`; tables are the `Frames` model of a
 * DataFrame. Coordinates are integers standing for the service's floats.
 */
module Geocode {
  import opened Wrappers
  import opened Errors
  import PyText
  import Json
  import opened Frames

  /** The cell written for a returned coordinate. */
  function OfCoord(c: Option<int>): Cell {
    if c.Some? then CNum(c.value) else CNone
  }

  // ---------------------------------------------------------------------------
  // The resolver

  /** What the service answers for one query: a location, nothing, or a raised exception. */
  datatype Lookup = Hit(lat: int, lon: int) | Miss | Fail(e: Exc)

  type Geocoder = string -> Lookup

  /** The `(latitude, longitude, error_message)` triple, with the queries sent, in order. */
  datatype Resolution = Resolution(lat: Option<int>, lon: Option<int>, error: string, queries: seq<string>)

  const Advisory := "Geocoded to city center - needs manual review"
  const NotFound := "Location not found"

  /** `filter(None, parts)`: the non-empty strings, in order. */
  function NonEmpty(parts: seq<string>): (r: seq<string>)
    ensures |r| <= |parts|
    ensures forall i :: 0 <= i < |r| ==> r[i] != ""
  {
    if parts == [] then []
    else (if parts[0] == "" then [] else [parts[0]]) + NonEmpty(parts[1..])
  }

  /** `", ".join(filter(None, parts))`. */
  function Joined(parts: seq<string>): string {
    PyText.Join(", ", NonEmpty(parts))
  }

  /** A `None` or `NaN` address is replaced by `""`. */
  function Normalized(address: Cell): Cell {
    if IsNa(address) then CText("") else address
  }

  /** The address stage runs: the address is truthy and not blank once stringified. */
  predicate RealAddress(address: Cell) {
    Truthy(Normalized(address)) && !PyText.IsBlank(Str(Normalized(address)))
  }

  function AddressQuery(address: Cell, city: Cell, state: Cell, zip: Cell): string {
    Joined([Str(Normalized(address)), Str(city), Str(state), Str(zip)])
  }

  function CszQuery(city: Cell, state: Cell, zip: Cell): string {
    Joined([Str(city), Str(state), Str(zip)])
  }

  /** The city/state/zip stage runs: one of the three is truthy. */
  predicate HasCsz(city: Cell, state: Cell, zip: Cell) {
    Truthy(city) || Truthy(state) || Truthy(zip)
  }

  /** The message of a service failure in the last stage, as `ExceptionContext` words it. */
  function CszFailure(e: Exc): string {
    ExceptionContext("Geocoding city,state,zip", APIConnectionError, Result<(), Exc>.Failure(e)).error.msg
  }

  /** A service failure that is not an application error is reported as an `APIConnectionError` message. */
  lemma {:induction false} CszFailureMessage(e: Exc)
    requires !IsAppError(e.cls)
    ensures CszFailure(e) == ContextMessage("Geocoding city,state,zip", e.msg)
  {
  }

  /** The address stage's query, when the address is real. */
  function AddressStage(address: Cell, city: Cell, state: Cell, zip: Cell): Option<string> {
    if RealAddress(address) then Some(AddressQuery(address, city, state, zip)) else None
  }

  /** The name stage's query, when the name is truthy. */
  function NameStage(name: Cell): Option<string> {
    if Truthy(name) then Some(Str(name)) else None
  }

  /** The city/state/zip stage's query, when one of them is truthy. */
  function CszStage(city: Cell, state: Cell, zip: Cell): Option<string> {
    if HasCsz(city, state, zip) then Some(CszQuery(city, state, zip)) else None
  }

  function AsSeq(q: Option<string>): (r: seq<string>)
    ensures |r| <= 1
  {
    if q.Some? then [q.value] else []
  }

  /** A stage that runs and is located. */
  predicate Located(q: Option<string>, geo: Geocoder) {
    q.Some? && geo(q.value).Hit?
  }

  /**
   * The control flow of `geocode` over its three stage queries: the first two fall
   * through on a miss or a service failure (which is only logged); the last one decides,
   * adding the advisory to a hit when `advisory` (the address was real) holds.
   */
  function Resolve(qa: Option<string>, qn: Option<string>, qc: Option<string>, advisory: bool, geo: Geocoder): (r: Resolution)
    ensures r.lat.Some? <==> r.lon.Some?
    ensures r.lat.Some? ==> r.error == "" || r.error == Advisory
  {
    if Located(qa, geo) then
      Resolution(Some(geo(qa.value).lat), Some(geo(qa.value).lon), "", [qa.value])
    else if Located(qn, geo) then
      Resolution(Some(geo(qn.value).lat), Some(geo(qn.value).lon), "", AsSeq(qa) + [qn.value])
    else if qc.Some? then
      var sent := AsSeq(qa) + AsSeq(qn) + [qc.value];
      match geo(qc.value)
      case Hit(lat, lon) => Resolution(Some(lat), Some(lon), if advisory then Advisory else "", sent)
      case Miss => Resolution(None, None, NotFound, sent)
      case Fail(e) => Resolution(None, None, CszFailure(e), sent)
    else
      Resolution(None, None, NotFound, AsSeq(qa) + AsSeq(qn))
  }

  /**
   * `geocode(address, city, state, zip_code, location_name=name)`: a `None` or `NaN`
   * address counts as `""`; the advisory is added exactly when the address was real.
   */
  function Geocode(address: Cell, city: Cell, state: Cell, zip: Cell, name: Cell, geo: Geocoder): (r: Resolution)
    ensures r.lat.Some? <==> r.lon.Some?
    ensures r.lat.Some? ==> r.error == "" || r.error == Advisory
  {
    Resolve(AddressStage(address, city, state, zip), NameStage(name), CszStage(city, state, zip), RealAddress(address), geo)
  }

  /** The queries the stages would send, in order. */
  function Stages(qa: Option<string>, qn: Option<string>, qc: Option<string>): (st: seq<string>)
    ensures |st| <= 3
  {
    AsSeq(qa) + AsSeq(qn) + AsSeq(qc)
  }

  /**
   * The first hit wins: the queries sent are the stages up to and including the first
   * one the service locates (all of them when none does), so at most three; the
   * coordinates are that hit's, and there are coordinates exactly when some stage hits.
   */
  lemma {:induction false} ResolveFirstHit(qa: Option<string>, qn: Option<string>, qc: Option<string>, advisory: bool, geo: Geocoder)
    ensures var r := Resolve(qa, qn, qc, advisory, geo);
            var st := Stages(qa, qn, qc);
            && r.queries <= st
            && (forall i :: 0 <= i < |r.queries| - 1 ==> !geo(r.queries[i]).Hit?)
            && (r.lat.Some? ==> r.queries != [] && geo(r.queries[|r.queries| - 1]) == Hit(r.lat.value, r.lon.value))
            && (r.lat.None? ==> r.queries == st && forall i :: 0 <= i < |st| ==> !geo(st[i]).Hit?)
            && (r.lat.Some? <==> exists i :: 0 <= i < |st| && geo(st[i]).Hit?)
  {
    var r := Resolve(qa, qn, qc, advisory, geo);
    var st := Stages(qa, qn, qc);
    if Located(qa, geo) {
      assert st[0] == qa.value;
    } else if Located(qn, geo) {
      assert st[|AsSeq(qa)|] == qn.value;
    } else if qc.Some? && geo(qc.value).Hit? {
      assert st[|st| - 1] == qc.value;
    }
  }

  /** `GeocodeFirstHit` for `geocode` itself: at most three queries, the first hit wins. */
  lemma {:induction false} GeocodeFirstHit(address: Cell, city: Cell, state: Cell, zip: Cell, name: Cell, geo: Geocoder)
    ensures var r := Geocode(address, city, state, zip, name, geo);
            var st := Stages(AddressStage(address, city, state, zip), NameStage(name), CszStage(city, state, zip));
            && |r.queries| <= 3
            && r.queries <= st
            && (r.lat.Some? <==> exists i :: 0 <= i < |st| && geo(st[i]).Hit?)
  {
    ResolveFirstHit(AddressStage(address, city, state, zip), NameStage(name), CszStage(city, state, zip), RealAddress(address), geo);
  }

  /** A `None`, `NaN` or blank address sends no address query. */
  lemma {:induction false} BlankAddressSkipsAddressStage(address: Cell, city: Cell, state: Cell, zip: Cell, name: Cell, geo: Geocoder)
    requires IsNa(address) || (address.CText? && PyText.IsBlank(address.s))
    ensures Geocode(address, city, state, zip, name, geo).queries <= AsSeq(NameStage(name)) + AsSeq(CszStage(city, state, zip))
  {
    assert !RealAddress(address);
    ResolveFirstHit(None, NameStage(name), CszStage(city, state, zip), false, geo);
  }

  /** A located address returns its coordinates with no error and sends nothing else. */
  lemma {:induction false} AddressHit(address: Cell, city: Cell, state: Cell, zip: Cell, name: Cell, geo: Geocoder)
    requires RealAddress(address) && geo(AddressQuery(address, city, state, zip)).Hit?
    ensures var h := geo(AddressQuery(address, city, state, zip));
            Geocode(address, city, state, zip, name, geo)
            == Resolution(Some(h.lat), Some(h.lon), "", [AddressQuery(address, city, state, zip)])
  {
  }

  /** A located name returns no error, and the city/state/zip stage is not reached. */
  lemma {:induction false} NameHit(address: Cell, city: Cell, state: Cell, zip: Cell, name: Cell, geo: Geocoder)
    requires !Located(AddressStage(address, city, state, zip), geo)
    requires Truthy(name) && geo(Str(name)).Hit?
    ensures var r := Geocode(address, city, state, zip, name, geo);
            && r.error == ""
            && r.lat == Some(geo(Str(name)).lat) && r.lon == Some(geo(Str(name)).lon)
            && r.queries == AsSeq(AddressStage(address, city, state, zip)) + [Str(name)]
  {
  }

  /** The last stage decides once the first two have not located anything. */
  lemma {:induction false} ResolveLastStage(qa: Option<string>, qn: Option<string>, qc: Option<string>, advisory: bool, geo: Geocoder)
    requires !Located(qa, geo) && !Located(qn, geo) && qc.Some?
    ensures var r := Resolve(qa, qn, qc, advisory, geo);
            var g := geo(qc.value);
            && r.queries == AsSeq(qa) + AsSeq(qn) + [qc.value]
            && (g.Hit? ==> r.lat == Some(g.lat) && r.lon == Some(g.lon) && r.error == (if advisory then Advisory else ""))
            && (g.Miss? ==> r.lat.None? && r.error == NotFound)
            && (g.Fail? ==> r.lat.None? && r.error == CszFailure(g.e))
  {
  }

  /**
   * The city/state/zip stage decides the outcome once the first two stages have not
   * located anything: a hit carries the advisory exactly when the address was real,
   * a miss is "Location not found", a failure is the wrapped service message.
   */
  lemma {:induction false} CszDecides(address: Cell, city: Cell, state: Cell, zip: Cell, name: Cell, geo: Geocoder)
    requires !Located(AddressStage(address, city, state, zip), geo) && !Located(NameStage(name), geo)
    requires HasCsz(city, state, zip)
    ensures var r := Geocode(address, city, state, zip, name, geo);
            var g := geo(CszQuery(city, state, zip));
            && r.queries != [] && r.queries[|r.queries| - 1] == CszQuery(city, state, zip)
            && (g.Hit? ==> r.lat == Some(g.lat) && r.lon == Some(g.lon) && (RealAddress(address) ==> r.error == Advisory))
            && (g.Hit? && !RealAddress(address) ==> r.error == "")
            && (g.Miss? ==> r.lat.None? && r.error == NotFound)
            && (g.Fail? && !IsAppError(g.e.cls) ==> r.lat.None? && r.error == ContextMessage("Geocoding city,state,zip", g.e.msg))
  {
    var qa, qn, qc := AddressStage(address, city, state, zip), NameStage(name), CszStage(city, state, zip);
    assert qc == Some(CszQuery(city, state, zip));
    var r := Geocode(address, city, state, zip, name, geo);
    assert r == Resolve(qa, qn, qc, RealAddress(address), geo);
    ResolveLastStage(qa, qn, qc, RealAddress(address), geo);
    var g := geo(qc.value);
    assert r.queries[|r.queries| - 1] == qc.value;
    if g.Fail? && !IsAppError(g.e.cls) {
      CszFailureMessage(g.e);
    }
  }

  /** With nothing located and no city, state or zip, the answer is "Location not found". */
  lemma {:induction false} NothingLeft(address: Cell, city: Cell, state: Cell, zip: Cell, name: Cell, geo: Geocoder)
    requires !Located(AddressStage(address, city, state, zip), geo) && !Located(NameStage(name), geo)
    requires !HasCsz(city, state, zip)
    ensures Geocode(address, city, state, zip, name, geo).lat.None?
    ensures Geocode(address, city, state, zip, name, geo).error == NotFound
  {
  }

  // ---------------------------------------------------------------------------
  // geocode_dataset

  /** The column a role names in the configuration, the role itself when absent. */
  function Role(cfg: map<string, string>, role: string): string {
    Get(cfg, role, role)
  }

  /** A column `name` is added, filled with `None`, unless the table has it. */
  function AddIfMissing(t: Table, name: string): (r: Table)
    ensures r.columns == t.columns + {name}
  {
    if name in t.columns then t else Table(t.columns + {name}, WithColumn(t.rows, name, CNone))
  }

  /** The table once the coordinate and error columns exist and `_needs_update` is `False` everywhere. */
  function Prepared(t: Table, cfg: map<string, string>): (r: Table)
    ensures Rectangular(t) ==> Rectangular(r)
    ensures |r.rows| == |t.rows|
    ensures r.columns == t.columns + {Role(cfg, "latitude"), Role(cfg, "longitude"), Role(cfg, "error"), "_needs_update"}
  {
    var t1 := AddIfMissing(AddIfMissing(AddIfMissing(t, Role(cfg, "latitude")), Role(cfg, "longitude")), Role(cfg, "error"));
    Table(t1.columns + {"_needs_update"}, WithColumn(t1.rows, "_needs_update", CBool(false)))
  }

  /** The columns the selection reads exist in every row. */
  predicate Selectable(rows: seq<Row>, cfg: map<string, string>) {
    && "latitude" in cfg && "longitude" in cfg
    && forall j :: 0 <= j < |rows| ==> cfg["latitude"] in rows[j] && cfg["longitude"] in rows[j] && "error" in rows[j]
  }

  /** A row is processed when a coordinate is missing or the error is neither null nor `""`. */
  predicate NeedsWork(row: Row, cfg: map<string, string>)
    requires "latitude" in cfg && "longitude" in cfg
    requires cfg["latitude"] in row && cfg["longitude"] in row && "error" in row
  {
    || IsNa(row[cfg["latitude"]]) || IsNa(row[cfg["longitude"]])
    || (!IsNa(row["error"]) && row["error"] != CText(""))
  }

  /** The configuration names the city, state and zip columns the loop reads. */
  predicate AddressKeys(cfg: map<string, string>) {
    "city" in cfg && "state" in cfg && "zip_code" in cfg
  }

  /** The column the address is read from: the configured one, else the column named `""`. */
  function AddressColumn(cfg: map<string, string>): string {
    Get(cfg, "address", "")
  }

  /**
   * The resolver's answer for one row: a missing cell reads as `""`, the name only when
   * configured. Without an "address" key the address comes from the column named `""`.
   */
  function RowResolution(row: Row, cfg: map<string, string>, geo: Geocoder): Resolution
    requires AddressKeys(cfg)
  {
    var name := if "name" in cfg then Get(row, "name", CNone) else CNone;
    Geocode(Get(row, AddressColumn(cfg), CText("")), Get(row, cfg["city"], CText("")),
            Get(row, cfg["state"], CText("")), Get(row, cfg["zip_code"], CText("")), name, geo)
  }

  /**
   * Without an "address" key a row's "address" cell is never queried: the address is read
   * from the absent column `""`, so only the name and city/state/zip stages can query.
   */
  lemma {:induction false} UnconfiguredAddressUnused(row: Row, cfg: map<string, string>, geo: Geocoder)
    requires AddressKeys(cfg) && "address" !in cfg && "" !in row
    ensures var name := if "name" in cfg then Get(row, "name", CNone) else CNone;
            RowResolution(row, cfg, geo).queries
              <= AsSeq(NameStage(name)) + AsSeq(CszStage(Get(row, cfg["city"], CText("")), Get(row, cfg["state"], CText("")), Get(row, cfg["zip_code"], CText(""))))
  {
    var name := if "name" in cfg then Get(row, "name", CNone) else CNone;
    var city, state, zip := Get(row, cfg["city"], CText("")), Get(row, cfg["state"], CText("")), Get(row, cfg["zip_code"], CText(""));
    assert AddressColumn(cfg) == "" && Get(row, "", CText("")) == CText("");
    assert RowResolution(row, cfg, geo) == Geocode(CText(""), city, state, zip, name, geo);
    assert PyText.Strip("") == "";
    BlankAddressSkipsAddressStage(CText(""), city, state, zip, name, geo);
  }

  /** A processed row: the coordinates, the error (cleared when the resolver returned none) and the flag. */
  function Updated(row: Row, cfg: map<string, string>, geo: Geocoder): Row
    requires AddressKeys(cfg) && "latitude" in cfg && "longitude" in cfg
  {
    WithResolution(row, cfg, RowResolution(row, cfg, geo))
  }

  /** A row with the resolver's answer `r` written in: coordinates, error (cleared when located cleanly) and the flag. */
  function WithResolution(row: Row, cfg: map<string, string>, r: Resolution): Row
    requires "latitude" in cfg && "longitude" in cfg
  {
    var w := row[cfg["latitude"] := OfCoord(r.lat)][cfg["longitude"] := OfCoord(r.lon)]
                ["error" := CText(r.error)]["_needs_update" := CBool(true)];
    if r.lat.Some? && r.lon.Some? && r.error == "" then w["error" := CNone] else w
  }

  /** What the loop leaves in a row: updated when selected, as it was otherwise. */
  function Processed(row: Row, cfg: map<string, string>, geo: Geocoder): Row
    requires "latitude" in cfg && "longitude" in cfg
    requires cfg["latitude"] in row && cfg["longitude"] in row && "error" in row
  {
    if NeedsWork(row, cfg) && AddressKeys(cfg) then Updated(row, cfg, geo) else row
  }

  /** The rows after reconciliation. */
  function Reconciled(rows: seq<Row>, cfg: map<string, string>, geo: Geocoder): (r: seq<Row>)
    requires Selectable(rows, cfg)
    ensures |r| == |rows|
    ensures forall j :: 0 <= j < |rows| ==> r[j] == Processed(rows[j], cfg, geo)
  {
    seq(|rows|, j requires 0 <= j < |rows| => Processed(rows[j], cfg, geo))
  }

  /** The number of rows selected for geocoding. */
  function Attempts(rows: seq<Row>, cfg: map<string, string>): nat
    requires Selectable(rows, cfg)
  {
    if rows == [] then 0
    else Attempts(rows[..|rows| - 1], cfg) + (if NeedsWork(rows[|rows| - 1], cfg) then 1 else 0)
  }

  /** A selected row the resolver gives both coordinates. */
  predicate Succeeds(row: Row, cfg: map<string, string>, geo: Geocoder)
    requires AddressKeys(cfg)
  {
    var r := RowResolution(row, cfg, geo);
    r.lat.Some? && r.lon.Some?
  }

  /** The number of selected rows that were located. */
  function Successes(rows: seq<Row>, cfg: map<string, string>, geo: Geocoder): nat
    requires Selectable(rows, cfg) && AddressKeys(cfg)
  {
    if rows == [] then 0
    else
      var last := rows[|rows| - 1];
      Successes(rows[..|rows| - 1], cfg, geo) + (if NeedsWork(last, cfg) && Succeeds(last, cfg, geo) then 1 else 0)
  }

  /** The number of selected rows that were not located. */
  function Failures(rows: seq<Row>, cfg: map<string, string>, geo: Geocoder): nat
    requires Selectable(rows, cfg) && AddressKeys(cfg)
  {
    if rows == [] then 0
    else
      var last := rows[|rows| - 1];
      Failures(rows[..|rows| - 1], cfg, geo) + (if NeedsWork(last, cfg) && !Succeeds(last, cfg, geo) then 1 else 0)
  }

  /**
   * The first configuration key or column whose lookup raises `KeyError`: the
   * coordinate roles and the "error" column when rows are selected, then the city,
   * state and zip roles, read only once a row is selected.
   */
  function MissingKey(t: Table, cfg: map<string, string>): Option<string>
    requires Rectangular(t)
  {
    if "latitude" !in cfg then Some("latitude")
    else if "longitude" !in cfg then Some("longitude")
    else if cfg["latitude"] !in t.columns || cfg["longitude"] !in t.columns then None
    else if "error" !in t.columns then Some("error")
    else if Attempts(t.rows, cfg) == 0 then None
    else if "city" !in cfg then Some("city")
    else if "state" !in cfg then Some("state")
    else if "zip_code" !in cfg then Some("zip_code")
    else None
  }

  const DatasetMapping: map<ErrClass, ErrClass> :=
    map[DataAccessError := DataAccessError, APIConnectionError := APIConnectionError, Exception := DataProcessingError]

  /** A `KeyError` escaping `geocode_dataset`, through its decorator. */
  function DatasetKeyError(key: string): Exc {
    HandleException(Result<(nat, nat), Exc>.Failure(Exc(KeyError, Json.KeyRepr(key))), DatasetMapping).error
  }

  /** A `KeyError` is not a key of the decorator's mapping, so it leaves as an unexpected `AppError`. */
  lemma {:induction false} DatasetKeyErrorUnexpected(key: string)
    ensures DatasetKeyError(key) == Exc(AppError, "Unexpected error: " + Json.KeyRepr(key))
  {
    HandleExceptionExactType<(nat, nat)>(Exc(KeyError, Json.KeyRepr(key)), DatasetMapping);
  }

  lemma {:induction false} PreparedHasSelection(t: Table, cfg: map<string, string>)
    requires Rectangular(t) && "latitude" in cfg && "longitude" in cfg
    ensures var p := Prepared(t, cfg);
            "error" in p.columns ==> Selectable(p.rows, cfg)
  {
    var p := Prepared(t, cfg);
    assert Role(cfg, "latitude") == cfg["latitude"] && Role(cfg, "longitude") == cfg["longitude"];
  }

  /** No row is selected exactly when the count of attempts is zero. */
  lemma {:induction false} NoAttempts(rows: seq<Row>, cfg: map<string, string>)
    requires Selectable(rows, cfg)
    ensures Attempts(rows, cfg) == 0 <==> forall j :: 0 <= j < |rows| ==> !NeedsWork(rows[j], cfg)
  {
    if rows != [] {
      var init := rows[..|rows| - 1];
      NoAttempts(init, cfg);
      assert forall j :: 0 <= j < |init| ==> init[j] == rows[j];
    }
  }

  /** Every selected row is counted once, as a success or as a failure. */
  lemma {:induction false} CountsAddUp(rows: seq<Row>, cfg: map<string, string>, geo: Geocoder)
    requires Selectable(rows, cfg) && AddressKeys(cfg)
    ensures Successes(rows, cfg, geo) + Failures(rows, cfg, geo) == Attempts(rows, cfg)
  {
    if rows != [] {
      CountsAddUp(rows[..|rows| - 1], cfg, geo);
    }
  }

  /** With nothing selected the rows are left as prepared. */
  lemma {:induction false} NothingSelected(rows: seq<Row>, cfg: map<string, string>, geo: Geocoder)
    requires Selectable(rows, cfg) && Attempts(rows, cfg) == 0
    ensures Reconciled(rows, cfg, geo) == rows
  {
    NoAttempts(rows, cfg);
  }

  /** Adds the coordinate and error columns when missing, then clears `_needs_update`. */
  method AddColumns(data: Frame, cfg: map<string, string>)
    requires data.Valid()
    modifies data
    ensures data.Valid() && data.Snapshot() == Prepared(old(data.Snapshot()), cfg)
  {
    var lat := Role(cfg, "latitude");
    if lat !in data.columns { data.SetColumn(lat, CNone); }
    var lon := Role(cfg, "longitude");
    if lon !in data.columns { data.SetColumn(lon, CNone); }
    var err := Role(cfg, "error");
    if err !in data.columns { data.SetColumn(err, CNone); }
    data.SetColumn("_needs_update", CBool(false));
  }

  /** Geocodes row `i` in place; `located` when both coordinates came back. */
  method GeocodeRow(data: Frame, i: nat, cfg: map<string, string>, geo: Geocoder) returns (located: bool)
    requires data.Valid() && i < |data.rows| && AddressKeys(cfg) && "latitude" in cfg && "longitude" in cfg
    requires cfg["latitude"] in data.columns && cfg["longitude"] in data.columns
    requires "error" in data.columns && "_needs_update" in data.columns
    modifies data
    ensures data.Valid() && data.columns == old(data.columns)
    ensures data.rows == old(data.rows)[i := Updated(old(data.rows)[i], cfg, geo)]
    ensures located == Succeeds(old(data.rows)[i], cfg, geo)
  {
    var res := RowResolution(data.rows[i], cfg, geo);
    data.SetCell(i, cfg["latitude"], OfCoord(res.lat));
    data.SetCell(i, cfg["longitude"], OfCoord(res.lon));
    data.SetCell(i, "error", CText(res.error));
    data.SetCell(i, "_needs_update", CBool(true));
    located := res.lat.Some? && res.lon.Some?;
    if located && res.error == "" {
      data.SetCell(i, "error", CNone);
    }
  }

  /** One pass of the row loop: a selected row is geocoded, any other row is left alone. */
  method ProcessRow(data: Frame, i: nat, cfg: map<string, string>, geo: Geocoder) returns (worked: bool, located: bool)
    requires data.Valid() && i < |data.rows| && AddressKeys(cfg) && "latitude" in cfg && "longitude" in cfg
    requires cfg["latitude"] in data.columns && cfg["longitude"] in data.columns
    requires "error" in data.columns && "_needs_update" in data.columns
    requires cfg["latitude"] in data.rows[i] && cfg["longitude"] in data.rows[i] && "error" in data.rows[i]
    modifies data
    ensures data.Valid() && data.columns == old(data.columns)
    ensures data.rows == old(data.rows)[i := Processed(old(data.rows)[i], cfg, geo)]
    ensures worked == NeedsWork(old(data.rows)[i], cfg)
    ensures worked ==> located == Succeeds(old(data.rows)[i], cfg, geo)
  {
    worked := NeedsWork(data.rows[i], cfg);
    located := false;
    if worked {
      located := GeocodeRow(data, i, cfg, geo);
    } else {
      assert data.rows == old(data.rows)[i := data.rows[i]];
    }
  }

  /** One more row of the loop: the prefix counts extended by that row's outcome. */
  lemma {:induction false} CountsStep(rows: seq<Row>, i: nat, cfg: map<string, string>, geo: Geocoder)
    requires Selectable(rows, cfg) && AddressKeys(cfg) && i < |rows|
    ensures Selectable(rows[..i], cfg) && Selectable(rows[..i + 1], cfg)
    ensures var w := NeedsWork(rows[i], cfg);
            var ok := Succeeds(rows[i], cfg, geo);
            && Successes(rows[..i + 1], cfg, geo) == Successes(rows[..i], cfg, geo) + (if w && ok then 1 else 0)
            && Failures(rows[..i + 1], cfg, geo) == Failures(rows[..i], cfg, geo) + (if w && !ok then 1 else 0)
  {
    assert rows[..i + 1][..i] == rows[..i];
  }

  /**
   * `geocode_dataset(data, columns_config, geolocator)`: adds the missing columns,
   * clears `_needs_update`, then geocodes every selected row in place and returns
   * the success and failure counts.
   */
  method GeocodeDataset(data: Frame, cfg: map<string, string>, geo: Geocoder) returns (r: Result<(nat, nat), Exc>)
    requires data.Valid()
    modifies data
    ensures data.Valid()
    ensures data.columns == Prepared(old(data.Snapshot()), cfg).columns
    ensures var p := Prepared(old(data.Snapshot()), cfg);
            r.Failure? <==> MissingKey(p, cfg).Some?
    ensures var p := Prepared(old(data.Snapshot()), cfg);
            r.Failure? ==> data.rows == p.rows && r.error == DatasetKeyError(MissingKey(p, cfg).value)
    ensures var p := Prepared(old(data.Snapshot()), cfg);
            r.Success? ==> && Selectable(p.rows, cfg)
                           && data.rows == Reconciled(p.rows, cfg, geo)
                           && (Attempts(p.rows, cfg) == 0 ==> r.value == (0, 0))
                           && (AddressKeys(cfg) ==> r.value == (Successes(p.rows, cfg, geo), Failures(p.rows, cfg, geo)))
  {
    ghost var t0 := data.Snapshot();
    AddColumns(data, cfg);
    r := SelectAndReconcile(data, cfg, geo, t0);
  }

  /** `geocode_dataset` once the columns are prepared: the selection, then the row loop. */
  method SelectAndReconcile(data: Frame, cfg: map<string, string>, geo: Geocoder, ghost t0: Table) returns (r: Result<(nat, nat), Exc>)
    requires data.Valid() && Rectangular(t0) && data.Snapshot() == Prepared(t0, cfg)
    modifies data
    ensures data.Valid() && data.columns == old(data.columns)
    ensures var p := old(data.Snapshot());
            r.Failure? <==> MissingKey(p, cfg).Some?
    ensures var p := old(data.Snapshot());
            r.Failure? ==> data.rows == p.rows && r.error == DatasetKeyError(MissingKey(p, cfg).value)
    ensures var p := old(data.Snapshot());
            r.Success? ==> && Selectable(p.rows, cfg)
                           && data.rows == Reconciled(p.rows, cfg, geo)
                           && (Attempts(p.rows, cfg) == 0 ==> r.value == (0, 0))
                           && (AddressKeys(cfg) ==> r.value == (Successes(p.rows, cfg, geo), Failures(p.rows, cfg, geo)))
  {
    ghost var p := data.Snapshot();

    // the selection reads the latitude role, the longitude role and the error column, in that order
    if "latitude" !in cfg || "longitude" !in cfg || "error" !in data.columns {
      var key := if "latitude" !in cfg then "latitude" else if "longitude" !in cfg then "longitude" else "error";
      assert MissingKey(p, cfg) == Some(key) by {
        if "latitude" in cfg && "longitude" in cfg {
          assert Role(cfg, "latitude") == cfg["latitude"] && Role(cfg, "longitude") == cfg["longitude"];
        }
      }
      return Failure(DatasetKeyError(key));
    }
    assert cfg["latitude"] in p.columns && cfg["longitude"] in p.columns by {
      assert Role(cfg, "latitude") == cfg["latitude"] && Role(cfg, "longitude") == cfg["longitude"];
    }
    PreparedHasSelection(t0, cfg);
    if Attempts(data.rows, cfg) == 0 {
      assert MissingKey(p, cfg) == None;
      NothingSelected(p.rows, cfg, geo);
      if AddressKeys(cfg) {
        CountsAddUp(p.rows, cfg, geo);
      }
      return Success((0, 0));
    }
    r := ReconcileRows(data, cfg, geo);
    assert !AddressKeys(cfg) ==> MissingKey(p, cfg) == Some(MissingAddressKey(cfg));
    assert AddressKeys(cfg) ==> MissingKey(p, cfg) == None;
  }

  /** The first of the city, state and zip roles the configuration lacks. */
  function MissingAddressKey(cfg: map<string, string>): string
    requires !AddressKeys(cfg)
  {
    if "city" !in cfg then "city" else if "state" !in cfg then "state" else "zip_code"
  }

  /** One pass of the row loop with every address role configured: the row and the counts move on by one. */
  /** The row loop's picture of the rows: those before `i` processed, the rest as they were. */
  ghost predicate RowsDone(p: seq<Row>, rows: seq<Row>, i: nat, cfg: map<string, string>, geo: Geocoder)
    requires Selectable(p, cfg)
  {
    && i <= |p| == |rows|
    && (forall j :: i <= j < |p| ==> rows[j] == p[j])
    && (forall j :: 0 <= j < i ==> rows[j] == Processed(p[j], cfg, geo))
  }

  /** One turn of the row loop when the address roles are all configured. */
  method VisitRow(data: Frame, ghost p: seq<Row>, i: nat, cfg: map<string, string>, geo: Geocoder, successes: nat, failures: nat)
    returns (successes': nat, failures': nat)
    requires data.Valid() && Selectable(p, cfg) && AddressKeys(cfg) && i < |p|
    requires cfg["latitude"] in data.columns && cfg["longitude"] in data.columns
    requires "error" in data.columns && "_needs_update" in data.columns
    requires RowsDone(p, data.rows, i, cfg, geo)
    requires successes == Successes(p[..i], cfg, geo) && failures == Failures(p[..i], cfg, geo)
    modifies data
    ensures data.Valid() && data.columns == old(data.columns)
    ensures RowsDone(p, data.rows, i + 1, cfg, geo)
    ensures successes' == Successes(p[..i + 1], cfg, geo) && failures' == Failures(p[..i + 1], cfg, geo)
  {
    ghost var before := data.rows;
    assert before[i] == p[i];
    var worked, located := ProcessRow(data, i, cfg, geo);
    successes', failures' := successes, failures;
    if worked {
      if located {
        successes' := successes + 1;
      } else {
        failures' := failures + 1;
      }
    }
    CountsStep(p, i, cfg, geo);
    RowsStep(p, before, data.rows, i, cfg, geo);
  }

  /** The row loop's picture of the rows, one row further on. */
  lemma {:induction false} RowsStep(p: seq<Row>, before: seq<Row>, after: seq<Row>, i: nat, cfg: map<string, string>, geo: Geocoder)
    requires Selectable(p, cfg) && i < |p| && RowsDone(p, before, i, cfg, geo)
    requires after == before[i := Processed(p[i], cfg, geo)]
    ensures RowsDone(p, after, i + 1, cfg, geo)
  {
  }

  /** A row the loop does not touch leaves the picture one row further on. */
  lemma {:induction false} RowsSkip(p: seq<Row>, rows: seq<Row>, i: nat, cfg: map<string, string>, geo: Geocoder)
    requires Selectable(p, cfg) && i < |p| && RowsDone(p, rows, i, cfg, geo) && !AddressKeys(cfg)
    ensures RowsDone(p, rows, i + 1, cfg, geo)
  {
    assert rows == rows[i := Processed(p[i], cfg, geo)];
    RowsStep(p, rows, rows, i, cfg, geo);
  }

  /** Without the address roles no row is changed. */
  lemma {:induction false} RowsKept(p: seq<Row>, rows: seq<Row>, i: nat, cfg: map<string, string>, geo: Geocoder)
    requires Selectable(p, cfg) && RowsDone(p, rows, i, cfg, geo) && !AddressKeys(cfg)
    ensures rows == p
  {
    assert forall j :: 0 <= j < |p| ==> rows[j] == p[j];
  }

  /** At the end of the loop every row is processed. */
  lemma {:induction false} RowsAllDone(p: seq<Row>, rows: seq<Row>, cfg: map<string, string>, geo: Geocoder)
    requires Selectable(p, cfg) && RowsDone(p, rows, |p|, cfg, geo)
    ensures rows == Reconciled(p, cfg, geo)
  {
  }

  /** The row loop of `geocode_dataset`, once at least one row is selected. */
  method ReconcileRows(data: Frame, cfg: map<string, string>, geo: Geocoder) returns (r: Result<(nat, nat), Exc>)
    requires data.Valid() && Selectable(data.rows, cfg) && Attempts(data.rows, cfg) > 0
    requires cfg["latitude"] in data.columns && cfg["longitude"] in data.columns
    requires "error" in data.columns && "_needs_update" in data.columns
    modifies data
    ensures data.Valid() && data.columns == old(data.columns)
    ensures r.Failure? <==> !AddressKeys(cfg)
    ensures r.Failure? ==> data.rows == old(data.rows) && r.error == DatasetKeyError(MissingAddressKey(cfg))
    ensures r.Success? ==> && data.rows == Reconciled(old(data.rows), cfg, geo)
                           && r.value == (Successes(old(data.rows), cfg, geo), Failures(old(data.rows), cfg, geo))
  {
    ghost var p := data.rows;
    var successes, failures := 0, 0;
    var i := 0;
    while i < |data.rows|
      invariant data.Valid() && data.columns == old(data.columns)
      invariant RowsDone(p, data.rows, i, cfg, geo)
      invariant !AddressKeys(cfg) ==> forall j :: 0 <= j < i ==> !NeedsWork(p[j], cfg)
      invariant AddressKeys(cfg) ==> successes == Successes(p[..i], cfg, geo) && failures == Failures(p[..i], cfg, geo)
    {
      assert data.rows[i] == p[i];
      if NeedsWork(data.rows[i], cfg) && !AddressKeys(cfg) {
        // reading the first absent city, state or zip role raises `KeyError`
        RowsKept(p, data.rows, i, cfg, geo);
        return Failure(DatasetKeyError(MissingAddressKey(cfg)));
      }
      if AddressKeys(cfg) {
        successes, failures := VisitRow(data, p, i, cfg, geo, successes, failures);
      } else {
        RowsSkip(p, data.rows, i, cfg, geo);
      }
      i := i + 1;
    }
    RowsAllDone(p, data.rows, cfg, geo);
    if !AddressKeys(cfg) {
      NoAttempts(p, cfg);
    }
    assert p[..i] == p;
    r := Success((successes, failures));
  }

  // ---------------------------------------------------------------------------
  // What reconciliation does to a row

  /**
   * A prepared row keeps every cell it had except `_needs_update`, which is `False`;
   * the added coordinate and error columns hold `None`.
   */
  lemma {:induction false} PreparedRows(t: Table, cfg: map<string, string>)
    requires Rectangular(t)
    ensures var p := Prepared(t, cfg);
            forall j :: 0 <= j < |t.rows| ==>
              && p.rows[j]["_needs_update"] == CBool(false)
              && (forall k :: k in t.rows[j] && k != "_needs_update" ==> p.rows[j][k] == t.rows[j][k])
              && (forall k :: k in p.rows[j] && k !in t.rows[j] && k != "_needs_update" ==> p.rows[j][k] == CNone)
  {
    var t1 := AddIfMissing(t, Role(cfg, "latitude"));
    var t2 := AddIfMissing(t1, Role(cfg, "longitude"));
    var t3 := AddIfMissing(t2, Role(cfg, "error"));
    assert |t1.rows| == |t2.rows| == |t3.rows| == |t.rows|;
    forall j | 0 <= j < |t.rows|
      ensures forall k :: k in t.rows[j] ==> t3.rows[j][k] == t.rows[j][k]
      ensures forall k :: k in t3.rows[j] && k !in t.rows[j] ==> t3.rows[j][k] == CNone
    {
    }
  }

  /**
   * A processed row holds the resolver's coordinates (`None` when not located), its
   * error text, cleared to `None` only when the row was located with no error, and
   * `_needs_update = True`; every other cell is kept.
   */
  lemma {:induction false} UpdatedRowSpec(row: Row, cfg: map<string, string>, geo: Geocoder)
    requires AddressKeys(cfg) && "latitude" in cfg && "longitude" in cfg
    requires cfg["latitude"] != cfg["longitude"]
    requires cfg["latitude"] !in {"error", "_needs_update"} && cfg["longitude"] !in {"error", "_needs_update"}
    ensures var r := RowResolution(row, cfg, geo);
            var u := Updated(row, cfg, geo);
            && u.Keys == row.Keys + {cfg["latitude"], cfg["longitude"], "error", "_needs_update"}
            && u["_needs_update"] == CBool(true)
            && u[cfg["latitude"]] == OfCoord(r.lat) && u[cfg["longitude"]] == OfCoord(r.lon)
            && (u[cfg["latitude"]] != CNone <==> Succeeds(row, cfg, geo))
            && (u["error"] == CNone <==> Succeeds(row, cfg, geo) && r.error == "")
            && (u["error"] != CNone ==> u["error"] == CText(r.error))
            && (forall k :: k in row && k != cfg["latitude"] && k != cfg["longitude"] && k != "error" && k != "_needs_update" ==> u[k] == row[k])
  {
    WithResolutionSpec(row, cfg, RowResolution(row, cfg, geo));
  }

  lemma {:induction false} WithResolutionSpec(row: Row, cfg: map<string, string>, r: Resolution)
    requires "latitude" in cfg && "longitude" in cfg
    requires r.lat.Some? <==> r.lon.Some?
    requires cfg["latitude"] != cfg["longitude"]
    requires cfg["latitude"] !in {"error", "_needs_update"} && cfg["longitude"] !in {"error", "_needs_update"}
    ensures var u := WithResolution(row, cfg, r);
            && u.Keys == row.Keys + {cfg["latitude"], cfg["longitude"], "error", "_needs_update"}
            && u["_needs_update"] == CBool(true)
            && u[cfg["latitude"]] == OfCoord(r.lat) && u[cfg["longitude"]] == OfCoord(r.lon)
            && (u[cfg["latitude"]] != CNone <==> r.lat.Some? && r.lon.Some?)
            && (u["error"] == CNone <==> r.lat.Some? && r.lon.Some? && r.error == "")
            && (u["error"] != CNone ==> u["error"] == CText(r.error))
            && (forall k :: k in row && k != cfg["latitude"] && k != cfg["longitude"] && k != "error" && k != "_needs_update" ==> u[k] == row[k])
  {
    var w := row[cfg["latitude"] := OfCoord(r.lat)][cfg["longitude"] := OfCoord(r.lon)]
                ["error" := CText(r.error)]["_needs_update" := CBool(true)];
    assert w[cfg["latitude"]] == OfCoord(r.lat) && w[cfg["longitude"]] == OfCoord(r.lon);
    assert w["error"] == CText(r.error) && w["_needs_update"] == CBool(true);
    if r.lat.Some? && r.lon.Some? && r.error == "" {
      assert WithResolution(row, cfg, r) == w["error" := CNone];
    } else {
      assert WithResolution(row, cfg, r) == w;
    }
  }

  /**
   * After a successful reconciliation the flag marks exactly the selected rows, so the
   * database driver writes back those rows and no others.
   */
  lemma {:induction false} FlagMarksSelected(t: Table, cfg: map<string, string>, geo: Geocoder)
    requires Rectangular(t) && AddressKeys(cfg) && "latitude" in cfg && "longitude" in cfg
    requires cfg["latitude"] != "_needs_update" && cfg["longitude"] != "_needs_update"
    requires Selectable(Prepared(t, cfg).rows, cfg)
    ensures var p := Prepared(t, cfg);
            var rs := Reconciled(p.rows, cfg, geo);
            forall j :: 0 <= j < |rs| ==> (rs[j]["_needs_update"] == CBool(true) <==> NeedsWork(p.rows[j], cfg))
  {
    PreparedRows(t, cfg);
  }

  // ---------------------------------------------------------------------------
  // The CSV driver

  /** A table written to a file. */
  datatype Write = Write(path: string, table: Table)

  /** `df.drop(columns=[col])`. */
  function Dropped(t: Table, col: string): (r: Table)
    ensures r.columns == t.columns - {col}
    ensures |r.rows| == |t.rows| && forall i :: 0 <= i < |r.rows| ==> r.rows[i] == t.rows[i] - {col}
  {
    Table(t.columns - {col}, seq(|t.rows|, i requires 0 <= i < |t.rows| => t.rows[i] - {col}))
  }

  /**
   * `load_csv_data(path, dtype)`: a missing file raises `FileNotFoundError`, which the
   * decorator (mapping only a bare `Exception`) turns into `AppError("Unexpected error:
   * ...")`; a read failure raises `DataAccessError` naming the file.
   */
  function LoadCsv(path: string, isFile: string -> bool, read: string -> Result<Table, string>): (r: Result<Table, Exc>)
    ensures r.Failure? ==> IsAppError(r.error.cls)
    ensures r.Success? <==> isFile(path) && read(path).Success?
    ensures r.Success? ==> r.value == read(path).value
    ensures !isFile(path) ==> r == Failure(Exc(AppError, "Unexpected error: " + (path + " not found.")))
  {
    var raw :=
      if !isFile(path) then Failure(Exc(FileNotFoundError, path + " not found."))
      else match read(path)
        case Success(t) => Success(t)
        case Failure(m) => Failure(Exc(DataAccessError, "Failed to load CSV file " + path + ": " + m));
    HandleException(raw, map[Exception := DataAccessError])
  }

  /** The file `process_csv_source` writes: the reconciled table without the flag column. */
  function CsvOutput(t: Table, cfg: map<string, string>, geo: Geocoder): Table
    requires Selectable(Prepared(t, cfg).rows, cfg)
  {
    var p := Prepared(t, cfg);
    Dropped(Table(p.columns, Reconciled(p.rows, cfg, geo)), "_needs_update")
  }

  /** A successful reconciliation selected the rows the prepared table can be asked about. */
  lemma {:induction false} NoMissingKeySelectable(t: Table, cfg: map<string, string>)
    requires Rectangular(t) && MissingKey(Prepared(t, cfg), cfg).None?
    ensures Selectable(Prepared(t, cfg).rows, cfg)
  {
    PreparedHasSelection(t, cfg);
  }

  /**
   * `process_csv_source(input, output, columns_config)`: load, reconcile, and write the
   * result to `output` (without `_needs_update`) exactly when some row was processed.
   */
  method ProcessCsvSource(input: string, output: string, cfg: map<string, string>,
                          isFile: string -> bool, read: string -> Result<Table, string>, geo: Geocoder)
    returns (r: Result<Option<Write>, Exc>)
    requires forall q :: read(q).Success? ==> Rectangular(read(q).value)
    ensures r.Failure? ==> IsAppError(r.error.cls)
    ensures LoadCsv(input, isFile, read).Failure? ==> r == Failure(LoadCsv(input, isFile, read).error)
    ensures LoadCsv(input, isFile, read).Success? ==>
              var p := Prepared(read(input).value, cfg);
              && (r.Failure? <==> MissingKey(p, cfg).Some?)
              && (r.Failure? ==> r.error == DatasetKeyError(MissingKey(p, cfg).value))
    ensures r.Success? ==> && LoadCsv(input, isFile, read).Success?
                           && var t := read(input).value;
                              && Selectable(Prepared(t, cfg).rows, cfg)
                              && (r.value.Some? <==> Attempts(Prepared(t, cfg).rows, cfg) > 0)
                              && (r.value.Some? ==> r.value.value == Write(output, CsvOutput(t, cfg, geo)))
  {
    var loaded := LoadCsv(input, isFile, read);
    if loaded.Failure? {
      return Failure(loaded.error);
    }
    var t := loaded.value;
    var data := new Frame(t);
    var counts := GeocodeDataset(data, cfg, geo);
    if counts.Failure? {
      return Failure(counts.error);
    }
    NoMissingKeySelectable(t, cfg);
    var p := Prepared(t, cfg);
    if AddressKeys(cfg) {
      CountsAddUp(p.rows, cfg, geo);
    }
    if counts.value.0 > 0 || counts.value.1 > 0 {
      var written := data.Snapshot();
      if "_needs_update" in written.columns {
        written := Dropped(written, "_needs_update");
      }
      r := Success(Some(Write(output, written)));
    } else {
      r := Success(None);
    }
  }

  /** A table's entry in the configuration: its stored name, its column roles, and the flag. */
  datatype TableConfig = TableConfig(tableName: Option<string>, columns: Option<map<string, string>>, needsGeocoding: bool)

  /** An attempted CSV job: the file read and the file written. */
  datatype CsvJob = CsvJob(input: string, output: string)

  function OriginalPath(locations: string, name: string): string {
    locations + "/" + name + ".csv"
  }

  function GeocodedPath(locations: string, name: string): string {
    locations + "/geocoded_" + name + ".csv"
  }

  /** The job for one configured table, when it needs geocoding and is complete. */
  function CsvJobOf(tc: TableConfig, locations: string, isFile: string -> bool): Option<CsvJob> {
    if !tc.needsGeocoding || tc.tableName.None? || tc.columns.None? then None
    else
      var geocoded := GeocodedPath(locations, tc.tableName.value);
      Some(CsvJob(if isFile(geocoded) then geocoded else OriginalPath(locations, tc.tableName.value), geocoded))
  }

  /** The jobs of `process_csv_mode`, in configuration order. */
  function CsvJobs(tables: seq<(string, TableConfig)>, locations: string, isFile: string -> bool): seq<CsvJob> {
    if tables == [] then []
    else
      var j := CsvJobOf(tables[|tables| - 1].1, locations, isFile);
      CsvJobs(tables[..|tables| - 1], locations, isFile) + (if j.Some? then [j.value] else [])
  }

  /**
   * Every CSV job writes the geocoded file of a table that needs geocoding, and reads
   * that file when it exists, the original otherwise.
   */
  lemma {:induction false} CsvJobsSpec(tables: seq<(string, TableConfig)>, locations: string, isFile: string -> bool)
    ensures forall job :: job in CsvJobs(tables, locations, isFile) ==>
              exists k :: 0 <= k < |tables| && tables[k].1.needsGeocoding && tables[k].1.tableName.Some?
                          && job.output == GeocodedPath(locations, tables[k].1.tableName.value)
                          && job.input == (if isFile(job.output) then job.output else OriginalPath(locations, tables[k].1.tableName.value))
  {
    if tables != [] {
      var init := tables[..|tables| - 1];
      CsvJobsSpec(init, locations, isFile);
      forall job | job in CsvJobs(init, locations, isFile)
        ensures exists k :: 0 <= k < |tables| && tables[k].1.needsGeocoding && tables[k].1.tableName.Some?
                          && job.output == GeocodedPath(locations, tables[k].1.tableName.value)
                          && job.input == (if isFile(job.output) then job.output else OriginalPath(locations, tables[k].1.tableName.value))
      {
        var k :| 0 <= k < |init| && init[k].1.needsGeocoding && init[k].1.tableName.Some?
                 && job.output == GeocodedPath(locations, init[k].1.tableName.value)
                 && job.input == (if isFile(job.output) then job.output else OriginalPath(locations, init[k].1.tableName.value));
        assert tables[k] == init[k];
      }
    }
  }

  /** A table that does not need geocoding contributes no job. */
  lemma {:induction false} SkippedTable(tables: seq<(string, TableConfig)>, locations: string, isFile: string -> bool, tc: TableConfig)
    requires !tc.needsGeocoding
    ensures CsvJobs(tables + [("", tc)], locations, isFile) == CsvJobs(tables, locations, isFile)
  {
    assert (tables + [("", tc)])[..|tables|] == tables;
  }

  /**
   * One table of `process_csv_mode`: `process_csv_source` on the job's input; a failure is
   * logged and the table skipped. Returns the file written, if any.
   */
  method RunCsvJob(job: CsvJob, cfg: map<string, string>,
                   isFile: string -> bool, read: string -> Result<Table, string>, geo: Geocoder)
    returns (w: Option<Write>)
    requires forall q :: read(q).Success? ==> Rectangular(read(q).value)
    ensures w.Some? ==> && LoadCsv(job.input, isFile, read).Success?
                        && Selectable(Prepared(read(job.input).value, cfg).rows, cfg)
                        && w.value == Write(job.output, CsvOutput(read(job.input).value, cfg, geo))
    ensures LoadCsv(job.input, isFile, read).Failure? ==> w.None?
    ensures LoadCsv(job.input, isFile, read).Success? ==>
              var p := Prepared(read(job.input).value, cfg);
              && (MissingKey(p, cfg).Some? ==> w.None?)
              && (MissingKey(p, cfg).None? ==> (w.Some? <==> Attempts(p.rows, cfg) > 0))
  {
    var res := ProcessCsvSource(job.input, job.output, cfg, isFile, read, geo);
    w := if res.Success? then res.value else None;
  }

  /**
   * `process_csv_mode`: every complete table that needs geocoding is processed from the
   * chosen input into its geocoded file; a failing table is logged and skipped, so the
   * mode itself never fails. Returns the jobs attempted and the files written.
   */
  method ProcessCsvMode(tables: seq<(string, TableConfig)>, locations: string,
                        isFile: string -> bool, read: string -> Result<Table, string>, geo: Geocoder)
    returns (jobs: seq<CsvJob>, writes: seq<Write>)
    requires forall q :: read(q).Success? ==> Rectangular(read(q).value)
    ensures jobs == CsvJobs(tables, locations, isFile)
    ensures |writes| <= |jobs|
    ensures forall k :: 0 <= k < |writes| ==> writes[k].path in Outputs(jobs)
  {
    jobs, writes := [], [];
    var i := 0;
    while i < |tables|
      invariant 0 <= i <= |tables|
      invariant jobs == CsvJobs(tables[..i], locations, isFile)
      invariant |writes| <= |jobs|
      invariant forall k :: 0 <= k < |writes| ==> writes[k].path in Outputs(jobs)
    {
      var tc := tables[i].1;
      CsvJobsStep(tables, i, locations, isFile);
      if tc.needsGeocoding && tc.tableName.Some? && tc.columns.Some? {
        var geocoded := GeocodedPath(locations, tc.tableName.value);
        var input := if isFile(geocoded) then geocoded else OriginalPath(locations, tc.tableName.value);
        var job := CsvJob(input, geocoded);
        var w := RunCsvJob(job, tc.columns.value, isFile, read, geo);
        OutputsSnoc(jobs, job);
        jobs := jobs + [job];
        if w.Some? {
          writes := writes + [w.value];
        }
      }
      i := i + 1;
    }
    assert tables[..i] == tables;
  }

  /** The output paths of the jobs, in order. */
  function Outputs(jobs: seq<CsvJob>): (outs: seq<string>)
    ensures |outs| == |jobs|
  {
    seq(|jobs|, j requires 0 <= j < |jobs| => jobs[j].output)
  }

  lemma {:induction false} OutputsSnoc(jobs: seq<CsvJob>, job: CsvJob)
    ensures Outputs(jobs + [job]) == Outputs(jobs) + [job.output]
  {
    assert forall j :: 0 <= j < |jobs| ==> (jobs + [job])[j] == jobs[j];
  }

  lemma {:induction false} CsvJobsStep(tables: seq<(string, TableConfig)>, i: nat, locations: string, isFile: string -> bool)
    requires i < |tables|
    ensures CsvJobs(tables[..i + 1], locations, isFile) ==
              CsvJobs(tables[..i], locations, isFile) +
              (if CsvJobOf(tables[i].1, locations, isFile).Some? then [CsvJobOf(tables[i].1, locations, isFile).value] else [])
  {
    assert tables[..i + 1][..i] == tables[..i];
  }

  // ---------------------------------------------------------------------------
  // The database driver

  /** One update sent to the store: the row id and the cells written back. */
  datatype Request = Request(id: Cell, payload: map<string, Cell>)

  /** The store's `update(payload).eq(id_column, id).execute()` on a table: whether it went through. */
  type Store = (string, Request, string) -> bool

  predicate Flagged(row: Row) {
    "_needs_update" in row && row["_needs_update"] == CBool(true)
  }

  /** The cells written back for a row: both coordinates and the error. */
  function Payload(row: Row, cfg: map<string, string>): map<string, Cell> {
    var lat := Get(cfg, "latitude", "");
    var lon := Get(cfg, "longitude", "");
    map[lat := Get(row, lat, CNone), lon := Get(row, lon, CNone), "error" := Get(row, "error", CNone)]
  }

  /** The updates for the flagged rows, in row order. */
  function Requests(rows: seq<Row>, cfg: map<string, string>): (rs: seq<Request>)
    ensures |rs| <= |rows|
  {
    if rows == [] then []
    else
      var last := rows[|rows| - 1];
      Requests(rows[..|rows| - 1], cfg)
      + (if Flagged(last) then [Request(Get(last, Get(cfg, "id", ""), CNone), Payload(last, cfg))] else [])
  }

  /** How many of the requests the store applied. */
  function Applied(table: string, idColumn: string, reqs: seq<Request>, store: Store): (n: nat)
    ensures n <= |reqs|
  {
    if reqs == [] then 0
    else Applied(table, idColumn, reqs[..|reqs| - 1], store) + (if store(table, reqs[|reqs| - 1], idColumn) then 1 else 0)
  }

  /** A row that reaches the id lookup without the id role or column. */
  predicate IdMissing(row: Row, cfg: map<string, string>) {
    Flagged(row) && ("id" !in cfg || cfg["id"] !in row)
  }

  /** The key a missing id reports: the role when unconfigured, else its column. */
  function IdKey(cfg: map<string, string>): string {
    if "id" in cfg then cfg["id"] else "id"
  }

  /** What `process_db_source` did: the updates it sent and how many went through. */
  datatype DbOutcome = DbOutcome(requests: seq<Request>, updated: nat)

  const DbSourceMapping: map<ErrClass, ErrClass> :=
    map[KeyError := DataAccessError, ValueError := DataAccessError, Exception := DataProcessingError]

  /** One more row adds its update to the requests when it is flagged. */
  lemma RequestsStep(rows: seq<Row>, i: nat, cfg: map<string, string>)
    requires i < |rows|
    ensures Requests(rows[..i + 1], cfg)
            == Requests(rows[..i], cfg)
               + (if Flagged(rows[i]) then [Request(Get(rows[i], Get(cfg, "id", ""), CNone), Payload(rows[i], cfg))] else [])
  {
    assert rows[..i + 1][..i] == rows[..i];
  }

  /** One more request adds one to the applied count when the store applies it. */
  lemma AppliedStep(table: string, idColumn: string, reqs: seq<Request>, req: Request, store: Store)
    ensures Applied(table, idColumn, reqs + [req], store)
            == Applied(table, idColumn, reqs, store) + (if store(table, req, idColumn) then 1 else 0)
  {
    assert (reqs + [req])[..|reqs|] == reqs;
  }

  /**
   * The write-back loop of `process_db_source`: one update per flagged row, in order;
   * a failing update is logged and not counted; a missing id role or column raises
   * `KeyError`.
   */
  method WriteBack(data: Frame, table: string, cfg: map<string, string>, store: Store) returns (r: Result<DbOutcome, Exc>)
    requires data.Valid()
    ensures r.Failure? <==> exists j :: 0 <= j < |data.rows| && IdMissing(data.rows[j], cfg)
    ensures r.Failure? ==> r.error == Exc(KeyError, Json.KeyRepr(IdKey(cfg)))
    ensures r.Success? ==> && r.value.requests == Requests(data.rows, cfg)
                           && r.value.updated == Applied(table, Get(cfg, "id", ""), r.value.requests, store)
  {
    var rows := data.rows;
    ghost var id := Get(cfg, "id", "");
    var requests: seq<Request> := [];
    var updated := 0;
    var i := 0;
    while i < |rows|
      invariant 0 <= i <= |rows|
      invariant forall j :: 0 <= j < i ==> !IdMissing(rows[j], cfg)
      invariant requests == Requests(rows[..i], cfg)
      invariant updated == Applied(table, id, requests, store)
    {
      var row := rows[i];
      RequestsStep(rows, i, cfg);
      if Flagged(row) {
        if "id" !in cfg || cfg["id"] !in row {
          assert IdMissing(rows[i], cfg);
          return Failure(Exc(KeyError, Json.KeyRepr(IdKey(cfg))));
        }
        var req := Request(row[cfg["id"]], Payload(row, cfg));
        assert id == cfg["id"];
        assert req == Request(Get(row, id, CNone), Payload(row, cfg));
        AppliedStep(table, id, requests, req, store);
        requests := requests + [req];
        if store(table, req, cfg["id"]) {
          updated := updated + 1;
        }
      }
      i := i + 1;
    }
    assert rows[..i] == rows;
    r := Success(DbOutcome(requests, updated));
  }

  /**
   * What `process_db_source` does with a loaded table before its decorator: reconcile it
   * (a missing key escapes `geocode_dataset` as its decorated error), then, when a row was
   * processed, send one update per flagged row; a flagged row reached without the id role
   * or column raises `KeyError`.
   */
  function SyncOutcome(t: Table, name: string, cfg: map<string, string>, store: Store, geo: Geocoder): Result<DbOutcome, Exc>
    requires Rectangular(t)
  {
    var p := Prepared(t, cfg);
    if MissingKey(p, cfg).Some? then Failure(DatasetKeyError(MissingKey(p, cfg).value))
    else
      NoMissingKeySelectable(t, cfg);
      if Attempts(p.rows, cfg) == 0 then Success(DbOutcome([], 0))
      else
        var rows := Reconciled(p.rows, cfg, geo);
        if exists j :: 0 <= j < |rows| && IdMissing(rows[j], cfg) then Failure(Exc(KeyError, Json.KeyRepr(IdKey(cfg))))
        else
          var reqs := Requests(rows, cfg);
          Success(DbOutcome(reqs, Applied(name, Get(cfg, "id", ""), reqs, store)))
  }

  /** `process_db_source(table_config, client)` with its decorator, as a function of the store's answers. */
  function DbSourceOutcome(tc: TableConfig, load: string -> Result<Table, Exc>, store: Store, geo: Geocoder): (r: Result<DbOutcome, Exc>)
    requires forall q :: load(q).Success? ==> Rectangular(load(q).value)
    ensures r.Failure? ==> IsAppError(r.error.cls)
  {
    assert AppTargets(DbSourceMapping);
    if tc.tableName.None? then HandleException(Failure(Exc(KeyError, Json.KeyRepr("table_name"))), DbSourceMapping)
    else if tc.columns.None? then HandleException(Failure(Exc(KeyError, Json.KeyRepr("columns"))), DbSourceMapping)
    else match load(tc.tableName.value)
      case Failure(e) => HandleException(Failure(e), DbSourceMapping)
      case Success(t) => HandleException(SyncOutcome(t, tc.tableName.value, tc.columns.value, store, geo), DbSourceMapping)
  }

  /** A missing "table_name" or "columns" is a `DataAccessError`; a load failure passes through the decorator. */
  lemma {:induction false} DbSourceEarlyFailures(tc: TableConfig, load: string -> Result<Table, Exc>, store: Store, geo: Geocoder)
    requires forall q :: load(q).Success? ==> Rectangular(load(q).value)
    ensures var r := DbSourceOutcome(tc, load, store, geo);
            && (tc.tableName.None? ==> r == Failure(Exc(DataAccessError, Json.KeyRepr("table_name"))))
            && (tc.tableName.Some? && tc.columns.None? ==> r == Failure(Exc(DataAccessError, Json.KeyRepr("columns"))))
            && (tc.tableName.Some? && tc.columns.Some? && load(tc.tableName.value).Failure? ==>
                  r == HandleException(load(tc.tableName.value), DbSourceMapping).PropagateFailure())
  {
  }

  /**
   * The cases of the undecorated work on a loaded table: a missing key keeps the error of
   * `geocode_dataset`; with nothing selected nothing is sent; otherwise it fails exactly
   * when a flagged row lacks its id, and succeeds with one update per flagged row.
   */
  lemma {:induction false} SyncOutcomeCases(t: Table, name: string, cfg: map<string, string>, store: Store, geo: Geocoder)
    requires Rectangular(t)
    ensures var s := SyncOutcome(t, name, cfg, store, geo);
            var p := Prepared(t, cfg);
            && (MissingKey(p, cfg).Some? ==> s == Failure(DatasetKeyError(MissingKey(p, cfg).value)))
            && (MissingKey(p, cfg).None? ==> Selectable(p.rows, cfg))
            && (MissingKey(p, cfg).None? && Attempts(p.rows, cfg) == 0 ==> s == Success(DbOutcome([], 0)))
            && (MissingKey(p, cfg).None? && Attempts(p.rows, cfg) > 0 ==>
                  && (s.Failure? <==> exists j :: 0 <= j < |p.rows| && IdMissing(Reconciled(p.rows, cfg, geo)[j], cfg))
                  && (s.Failure? ==> s.error == Exc(KeyError, Json.KeyRepr(IdKey(cfg))))
                  && (s.Success? ==> && s.value.requests == Requests(Reconciled(p.rows, cfg, geo), cfg)
                                     && s.value.updated == Applied(name, Get(cfg, "id", ""), s.value.requests, store)))
  {
    if MissingKey(Prepared(t, cfg), cfg).None? {
      NoMissingKeySelectable(t, cfg);
    }
  }

  /**
   * On a loaded table the decorator keeps a success and an application error (the error
   * `geocode_dataset` raises for a missing key) and turns the missing id's `KeyError`
   * into `DataAccessError` with the same message.
   */
  lemma {:induction false} DbSourceDecorated(tc: TableConfig, load: string -> Result<Table, Exc>, store: Store, geo: Geocoder)
    requires forall q :: load(q).Success? ==> Rectangular(load(q).value)
    requires tc.tableName.Some? && tc.columns.Some? && load(tc.tableName.value).Success?
    ensures var s := SyncOutcome(load(tc.tableName.value).value, tc.tableName.value, tc.columns.value, store, geo);
            var r := DbSourceOutcome(tc, load, store, geo);
            && (s.Success? ==> r == s)
            && (s.Failure? && IsAppError(s.error.cls) ==> r == s)
            && (s.Failure? && s.error.cls == KeyError ==> r == Failure(Exc(DataAccessError, s.error.msg)))
  {
    var s := SyncOutcome(load(tc.tableName.value).value, tc.tableName.value, tc.columns.value, store, geo);
    assert DbSourceOutcome(tc, load, store, geo) == HandleException(s, DbSourceMapping);
  }

  /**
   * The work on a loaded table: `geocode_dataset` on a frame of it, then the write-back
   * loop when a row was processed.
   */
  method SyncTable(t: Table, name: string, cfg: map<string, string>, store: Store, geo: Geocoder)
    returns (r: Result<DbOutcome, Exc>)
    requires Rectangular(t)
    ensures r == SyncOutcome(t, name, cfg, store, geo)
  {
    var data := new Frame(t);
    var counts := GeocodeDataset(data, cfg, geo);
    if counts.Failure? {
      return counts.PropagateFailure();
    }
    NoMissingKeySelectable(t, cfg);
    ghost var p := Prepared(t, cfg);
    if AddressKeys(cfg) {
      CountsAddUp(p.rows, cfg, geo);
    }
    if counts.value.0 > 0 || counts.value.1 > 0 {
      r := WriteBack(data, name, cfg, store);
    } else {
      r := Success(DbOutcome([], 0));
    }
  }

  /**
   * `process_db_source(table_config, client)`: load the table, reconcile it, and when
   * a row was processed send one update per flagged row. A missing configuration key
   * raises `KeyError`, which the decorator turns into `DataAccessError`.
   */
  method ProcessDbSource(tc: TableConfig, load: string -> Result<Table, Exc>, store: Store, geo: Geocoder)
    returns (r: Result<DbOutcome, Exc>)
    requires forall q :: load(q).Success? ==> Rectangular(load(q).value)
    ensures r == DbSourceOutcome(tc, load, store, geo)
  {
    if tc.tableName.None? || tc.columns.None? {
      var key := if tc.tableName.None? then "table_name" else "columns";
      return HandleException(Failure(Exc(KeyError, Json.KeyRepr(key))), DbSourceMapping);
    }
    var loaded := load(tc.tableName.value);
    if loaded.Failure? {
      return HandleException(loaded.PropagateFailure(), DbSourceMapping);
    }
    var synced := SyncTable(loaded.value, tc.tableName.value, tc.columns.value, store, geo);
    r := HandleException(synced, DbSourceMapping);
  }

  /** Rows flagged in one sequence exactly where the other is selected give one request per selected row. */
  lemma {:induction false} RequestsCount(a: seq<Row>, b: seq<Row>, cfg: map<string, string>)
    requires Selectable(a, cfg) && |a| == |b|
    requires forall j :: 0 <= j < |a| ==> (Flagged(b[j]) <==> NeedsWork(a[j], cfg))
    ensures |Requests(b, cfg)| == Attempts(a, cfg)
  {
    if a != [] {
      var n := |a| - 1;
      assert forall j :: 0 <= j < n ==> a[..n][j] == a[j] && b[..n][j] == b[j];
      RequestsCount(a[..n], b[..n], cfg);
    }
  }

  /** With a sensible configuration the database receives one update per processed row. */
  lemma {:induction false} OneUpdatePerProcessedRow(t: Table, cfg: map<string, string>, geo: Geocoder)
    requires Rectangular(t) && AddressKeys(cfg) && "latitude" in cfg && "longitude" in cfg
    requires cfg["latitude"] != "_needs_update" && cfg["longitude"] != "_needs_update"
    requires Selectable(Prepared(t, cfg).rows, cfg)
    ensures var p := Prepared(t, cfg);
            |Requests(Reconciled(p.rows, cfg, geo), cfg)| == Attempts(p.rows, cfg)
  {
    var p := Prepared(t, cfg);
    var rs := Reconciled(p.rows, cfg, geo);
    FlagMarksSelected(t, cfg, geo);
    PreparedRows(t, cfg);
    forall j | 0 <= j < |rs|
      ensures Flagged(rs[j]) <==> NeedsWork(p.rows[j], cfg)
    {
      assert "_needs_update" in p.rows[j];
      if NeedsWork(p.rows[j], cfg) {
        UpdatedRowSpecFlag(p.rows[j], cfg, geo);
      }
    }
    RequestsCount(p.rows, rs, cfg);
  }

  /** A processed row keeps every key and carries `_needs_update`. */
  lemma {:induction false} UpdatedRowSpecFlag(row: Row, cfg: map<string, string>, geo: Geocoder)
    requires AddressKeys(cfg) && "latitude" in cfg && "longitude" in cfg
    ensures "_needs_update" in Updated(row, cfg, geo)
    ensures row.Keys <= Updated(row, cfg, geo).Keys
  {
  }

  /** The tables `process_db_mode` processes, in configuration order. */
  function ToGeocode(tables: seq<(string, TableConfig)>): (r: seq<(string, TableConfig)>)
    ensures |r| <= |tables|
    ensures forall e :: e in r ==> e in tables && e.1.needsGeocoding
  {
    if tables == [] then []
    else ToGeocode(tables[..|tables| - 1]) + (if tables[|tables| - 1].1.needsGeocoding then [tables[|tables| - 1]] else [])
  }

  /**
   * What `process_db_mode` makes of the configured tables once a client exists: each table
   * that needs geocoding is processed in order inside its `ExceptionContext`, and the first
   * failure ends the mode with that error.
   */
  function DbModeOutcome(tables: seq<(string, TableConfig)>, load: string -> Result<Table, Exc>, store: Store, geo: Geocoder)
    : (r: Result<seq<DbOutcome>, Exc>)
    requires forall q :: load(q).Success? ==> Rectangular(load(q).value)
    ensures r.Failure? ==> IsAppError(r.error.cls)
    ensures r.Success? ==> |r.value| == |ToGeocode(tables)|
    decreases |tables|
  {
    if tables == [] then Success([])
    else
      var prev := DbModeOutcome(tables[..|tables| - 1], load, store, geo);
      var (key, tc) := tables[|tables| - 1];
      if prev.Failure? || !tc.needsGeocoding then prev
      else
        var g := ExceptionContext("Processing " + key + " table", DataProcessingError, DbSourceOutcome(tc, load, store, geo));
        if g.Failure? then Failure(g.error) else Success(prev.value + [g.value])
  }

  /** Once a prefix of the tables has failed, the whole mode fails with that error. */
  lemma {:induction false} DbModeFailureSticky(tables: seq<(string, TableConfig)>, k: nat, load: string -> Result<Table, Exc>, store: Store, geo: Geocoder)
    requires forall q :: load(q).Success? ==> Rectangular(load(q).value)
    requires k <= |tables| && DbModeOutcome(tables[..k], load, store, geo).Failure?
    ensures DbModeOutcome(tables, load, store, geo) == DbModeOutcome(tables[..k], load, store, geo)
    decreases |tables|
  {
    if k < |tables| {
      var front := tables[..|tables| - 1];
      assert front[..k] == tables[..k];
      DbModeFailureSticky(front, k, load, store, geo);
    } else {
      assert tables[..k] == tables;
    }
  }

  /** When every table that needs geocoding succeeds, the mode returns their outcomes in order. */
  lemma {:induction false} DbModeSucceeds(tables: seq<(string, TableConfig)>, load: string -> Result<Table, Exc>, store: Store, geo: Geocoder)
    requires forall q :: load(q).Success? ==> Rectangular(load(q).value)
    requires forall j :: 0 <= j < |tables| && tables[j].1.needsGeocoding ==> DbSourceOutcome(tables[j].1, load, store, geo).Success?
    ensures var r := DbModeOutcome(tables, load, store, geo);
            var ts := ToGeocode(tables);
            && r.Success?
            && forall k :: 0 <= k < |ts| ==> r.value[k] == DbSourceOutcome(ts[k].1, load, store, geo).value
    decreases |tables|
  {
    if tables != [] {
      var n := |tables| - 1;
      var front := tables[..n];
      assert forall j :: 0 <= j < n ==> front[j] == tables[j];
      DbModeSucceeds(front, load, store, geo);
    }
  }

  /**
   * The first table that needs geocoding and fails aborts the mode with its own error:
   * `process_db_source` raises only application errors, which `ExceptionContext` lets through.
   */
  lemma {:induction false} DbModeAborts(tables: seq<(string, TableConfig)>, i: nat, load: string -> Result<Table, Exc>, store: Store, geo: Geocoder)
    requires forall q :: load(q).Success? ==> Rectangular(load(q).value)
    requires i < |tables| && tables[i].1.needsGeocoding && DbSourceOutcome(tables[i].1, load, store, geo).Failure?
    requires forall j :: 0 <= j < i && tables[j].1.needsGeocoding ==> DbSourceOutcome(tables[j].1, load, store, geo).Success?
    ensures DbModeOutcome(tables, load, store, geo) == Failure(DbSourceOutcome(tables[i].1, load, store, geo).error)
  {
    var upto := tables[..i + 1];
    var front := tables[..i];
    assert upto[..i] == front;
    assert forall j :: 0 <= j < i ==> front[j] == tables[j];
    DbModeSucceeds(front, load, store, geo);
    var (key, tc) := tables[i];
    var e := DbSourceOutcome(tc, load, store, geo);
    assert IsAppError(e.error.cls);
    assert ExceptionContext("Processing " + key + " table", DataProcessingError, e) == e;
    assert upto[i] == (key, tc);
    assert DbModeOutcome(upto, load, store, geo) == Failure(e.error);
    DbModeFailureSticky(tables, i + 1, load, store, geo);
  }

  /**
   * `process_db_mode`: without a client it raises `DataAccessError`; otherwise each
   * table that needs geocoding is processed in order, and the first failure aborts
   * the mode with that table's error. Returns one outcome per processed table.
   */
  method ProcessDbMode(clientReady: bool, tables: seq<(string, TableConfig)>,
                       load: string -> Result<Table, Exc>, store: Store, geo: Geocoder)
    returns (r: Result<seq<DbOutcome>, Exc>)
    requires forall q :: load(q).Success? ==> Rectangular(load(q).value)
    ensures !clientReady ==> r == Failure(Exc(DataAccessError, "Failed to initialize Supabase client"))
    ensures clientReady ==> r == DbModeOutcome(tables, load, store, geo)
  {
    if !clientReady {
      return Failure(Exc(DataAccessError, "Failed to initialize Supabase client"));
    }
    var outcomes: seq<DbOutcome> := [];
    var i := 0;
    while i < |tables|
      invariant 0 <= i <= |tables|
      invariant DbModeOutcome(tables[..i], load, store, geo) == Success(outcomes)
    {
      assert tables[..i + 1][..i] == tables[..i];
      var (key, tc) := tables[i];
      if tc.needsGeocoding {
        var res := ProcessDbSource(tc, load, store, geo);
        var guarded := ExceptionContext("Processing " + key + " table", DataProcessingError, res);
        if guarded.Failure? {
          DbModeFailureSticky(tables, i + 1, load, store, geo);
          return Failure(guarded.error);
        }
        outcomes := outcomes + [guarded.value];
      }
      i := i + 1;
    }
    assert tables[..i] == tables;
    r := Success(outcomes);
  }
}
