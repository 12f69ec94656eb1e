/**
 * The static configuration: the table settings (`TABLES`), the public-table filter and
 * the map settings (`MAP_SETTINGS`). A dictionary whose key order matters is an ordered
 * sequence of (key, value) pairs; a key that may be absent is an `Option`.
 */
module Config {
  import opened Wrappers

  // ---------------------------------------------------------------------------
  // Tables

  datatype TableConfig = TableConfig(
    tableName: string,
    needsGeocoding: Option<bool>,
    publicApiVisible: Option<bool>,
    generateMap: Option<bool>,
    columns: map<string, string>)

  function Identity(keys: seq<string>): (m: map<string, string>)
    ensures m.Keys == set k | k in keys
    ensures forall k :: k in m ==> m[k] == k
  {
    map k | k in keys :: k
  }

  /** The columns `upsert_isochrones` writes. */
  const IsochroneColumns: seq<string> :=
    ["id", "name", "state", "zip_code", "group_index", "value", "center", "geometry", "metadata"]

  /** `TABLES`, in declaration order. */
  const Tables: seq<(string, TableConfig)> := [
    ("centers", TableConfig("city_centers", Some(true), Some(true), Some(true),
       Identity(["id", "address", "city", "state", "zip_code", "latitude", "longitude"]))),
    ("locations", TableConfig("locations", Some(true), Some(true), Some(true),
       Identity(["id", "name", "address", "city", "state", "zip_code", "latitude", "longitude"]))),
    ("isochrones", TableConfig("isochrones", Some(false), Some(true), Some(false), Identity(IsochroneColumns))),
    ("health_check", TableConfig("health_check", Some(false), Some(true), Some(false),
       Identity(["id", "status", "timestamp", "message"])))
  ]

  /** `key in TABLES` together with `TABLES[key]`. */
  function TableOf(tables: seq<(string, TableConfig)>, key: string): (r: Option<TableConfig>)
    ensures r.Some? <==> exists i :: 0 <= i < |tables| && tables[i].0 == key
    ensures r.Some? ==> exists i :: 0 <= i < |tables| && tables[i] == (key, r.value)
  {
    if |tables| == 0 then None
    else if tables[0].0 == key then Some(tables[0].1)
    else
      var r := TableOf(tables[1..], key);
      assert r.Some? ==> tables[1..][0..] == tables[1..];
      r
  }

  /** `key in TABLES and TABLES[key].get("generate_map", False)`: a map can be served for the key. */
  predicate Mappable(key: string) {
    var t := TableOf(Tables, key);
    t.Some? && t.value.generateMap.GetOr(false)
  }

  /** `get_public_api_tables()`: the table names of the entries marked visible, in order. */
  function PublicApiTables(tables: seq<(string, TableConfig)>): (names: seq<string>)
    ensures |names| <= |tables|
    ensures forall n :: n in names <==>
              exists i :: 0 <= i < |tables| && tables[i].1.publicApiVisible.GetOr(false) && tables[i].1.tableName == n
  {
    if |tables| == 0 then []
    else
      var front := PublicApiTables(tables[..|tables| - 1]);
      var last := tables[|tables| - 1].1;
      assert forall i :: 0 <= i < |tables| - 1 ==> tables[..|tables| - 1][i] == tables[i];
      if last.publicApiVisible.GetOr(false) then front + [last.tableName] else front
  }

  /** The filter keeps the order of `TABLES` and skips entries without the flag. */
  lemma {:induction false} PublicApiTablesAppend(a: seq<(string, TableConfig)>, b: seq<(string, TableConfig)>)
    ensures PublicApiTables(a + b) == PublicApiTables(a) + PublicApiTables(b)
    decreases |b|
  {
    if b == [] {
      assert a + b == a;
    } else {
      var n := |b| - 1;
      PublicApiTablesAppend(a, b[..n]);
      assert (a + b)[..|a + b| - 1] == a + b[..n];
      assert (a + b)[|a + b| - 1] == b[n];
    }
  }

  lemma {:induction false} PublicApiTablesOne(key: string, t: TableConfig)
    ensures PublicApiTables([(key, t)]) == if t.publicApiVisible.GetOr(false) then [t.tableName] else []
  {
    assert [(key, t)][..0] == [];
  }

  /** With the shipped tables every table is public. */
  lemma {:induction false} ShippedPublicTables()
    ensures PublicApiTables(Tables) == ["city_centers", "locations", "isochrones", "health_check"]
  {
    var t := Tables;
    PublicApiTablesAppend([t[0], t[1]], [t[2], t[3]]);
    PublicApiTablesAppend([t[0]], [t[1]]);
    PublicApiTablesAppend([t[2]], [t[3]]);
    PublicApiTablesOne(t[0].0, t[0].1);
    PublicApiTablesOne(t[1].0, t[1].1);
    PublicApiTablesOne(t[2].0, t[2].1);
    PublicApiTablesOne(t[3].0, t[3].1);
    assert [t[0], t[1]] + [t[2], t[3]] == t;
    assert [t[0]] + [t[1]] == [t[0], t[1]];
    assert [t[2]] + [t[3]] == [t[2], t[3]];
  }

  lemma {:induction false} TableOfShipped(key: string)
    ensures TableOf(Tables, key) ==
              if key == "centers" then Some(Tables[0].1)
              else if key == "locations" then Some(Tables[1].1)
              else if key == "isochrones" then Some(Tables[2].1)
              else if key == "health_check" then Some(Tables[3].1)
              else None
  {
    var t := Tables;
    assert t[1..][1..] == [t[2], t[3]];
    assert t[1..][1..][1..] == [t[3]];
    assert t[1..][1..][1..][1..] == [];
  }

  /** Geocoding and map generation are switched on exactly for the centres and the locations. */
  lemma {:induction false} ShippedFlags(key: string)
    ensures TableOf(Tables, key).Some? <==> key in {"centers", "locations", "isochrones", "health_check"}
    ensures TableOf(Tables, key).Some? ==>
              (TableOf(Tables, key).value.needsGeocoding == Some(true) <==> key in {"centers", "locations"})
    ensures Mappable(key) <==> key in {"centers", "locations"}
  {
    TableOfShipped(key);
  }

  /** Every table has an "id" column, and the isochrone table has exactly the columns the upsert writes. */
  lemma {:induction false} ShippedColumns()
    ensures forall i :: 0 <= i < |Tables| ==> "id" in Tables[i].1.columns
    ensures TableOf(Tables, "isochrones").Some?
    ensures TableOf(Tables, "isochrones").value.columns.Keys == set k | k in IsochroneColumns
    ensures |IsochroneColumns| == 9
  {
    TableOfShipped("isochrones");
  }

  // ---------------------------------------------------------------------------
  // Map settings

  /** A tile provider's entry: its folium name, custom tile URL and attribution, where given. */
  datatype Provider = Provider(name: Option<string>, tiles: Option<string>, attr: Option<string>)

  datatype TilesConfig = TilesConfig(
    default: Option<string>,
    preferred: Option<string>,
    providers: Option<seq<(string, Provider)>>)

  datatype LayerConfig = LayerConfig(name: Option<string>, show: Option<bool>)

  datatype MapSettings = MapSettings(
    zoom: Option<int>, minZoom: Option<int>, maxZoom: Option<int>,
    layers: Option<seq<(string, LayerConfig)>>,
    tiles: Option<TilesConfig>,
    colors: Option<seq<string>>)

  const Palette: seq<string> := [
    "#3366CC", "#DC3912", "#FF9900", "#109618", "#990099", "#0099C6",
    "#DD4477", "#66AA00", "#B82E2E", "#316395", "#994499", "#22AA99", "#AAAA11",
    "#69C", "#F90", "#9C6", "#C69", "#996", "#669", "#6CC", "#C96", "#C66", "#6A0", "#969", "#969"]

  /** `MAP_SETTINGS`. */
  const Settings := MapSettings(
    Some(8), Some(5), Some(12),
    Some([("draw", LayerConfig(Some("Draw Layer"), Some(true))),
          ("isochrones", LayerConfig(Some("Isochrones"), Some(true))),
          ("centers", LayerConfig(Some("City Centers"), Some(true))),
          ("locations", LayerConfig(Some("Points of Interest"), Some(false)))]),
    Some(TilesConfig(Some("OpenStreetMap"), Some("CartoDB"), Some([
      ("OpenStreetMap", Provider(Some("OpenStreetMap"), None, None)),
      ("CartoDB", Provider(Some("CartoDB positron"), None, None)),
      ("Satellite", Provider(Some("Satellite"),
         Some("https://server.arcgisonline.com/ArcGIS/rest/services/World_Imagery/MapServer/tile/{z}/{y}/{x}"),
         Some("Esri"))),
      ("Dark", Provider(Some("CartoDB dark_matter"), None, None)),
      ("Topographic", Provider(Some("OpenTopoMap"), None, None))]))),
    Some(Palette))
}
