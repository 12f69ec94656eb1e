/**
 * The decisions behind the folium maps: which base tiles and switchable tile layers a
 * map gets, which colour each isochrone name gets, the order and labels of the drawn
 * isochrones, which layers and markers are added, the checks on the loaded data, the
 * merging of local isochrone files, and the check of the map settings.
 *
 * A map is described by the value `MapPlan` (what would be drawn) rather than built.
 * Folium's acceptance of a tile name is the oracle `builtin`.
 */
module Maps {
  import opened Wrappers
  import opened Errors
  import opened Json
  import PyText
  import Frames
  import Config

  type Provider = Config.Provider
  type TilesConfig = Config.TilesConfig
  type MapSettings = Config.MapSettings

  // ---------------------------------------------------------------------------
  // Tile providers

  /** `providers.get(name)` on the ordered provider dictionary. */
  function Lookup(ps: seq<(string, Provider)>, name: string): (r: Option<Provider>)
    ensures r.Some? <==> exists i :: 0 <= i < |ps| && ps[i].0 == name
    ensures r.Some? ==> exists i :: 0 <= i < |ps| && ps[i] == (name, r.value)
  {
    if |ps| == 0 then None
    else if ps[0].0 == name then Some(ps[0].1)
    else
      var r := Lookup(ps[1..], name);
      assert r.Some? ==> forall i :: 0 <= i < |ps| - 1 ==> ps[1..][i] == ps[i + 1];
      r
  }

  const OsmEntry := Config.Provider(Some("OpenStreetMap"), None, None)

  /** `MAP_SETTINGS.get("tiles", {})`. */
  function TilesOf(s: MapSettings): TilesConfig {
    s.tiles.GetOr(Config.TilesConfig(None, None, None))
  }

  /** A truthy `tile_provider` argument. */
  predicate Given(tileProvider: Option<string>) {
    tileProvider.Some? && tileProvider.value != ""
  }

  /** `provider_name`: the argument, else the configured default, else "OpenStreetMap". */
  function ActiveName(s: MapSettings, tileProvider: Option<string>): (name: string)
    ensures Given(tileProvider) ==> name == tileProvider.value
    ensures !Given(tileProvider) && TilesOf(s).default.Some? ==> name == TilesOf(s).default.value
    ensures !Given(tileProvider) && TilesOf(s).default.None? ==> name == "OpenStreetMap"
  {
    if Given(tileProvider) then tileProvider.value else TilesOf(s).default.GetOr("OpenStreetMap")
  }

  /** `provider`: the named entry, else the "OpenStreetMap" entry, else a bare OpenStreetMap entry. */
  function ActiveProvider(s: MapSettings, tileProvider: Option<string>): (p: Provider)
    ensures var ps := TilesOf(s).providers.GetOr([("OpenStreetMap", OsmEntry)]);
            Lookup(ps, ActiveName(s, tileProvider)).Some? ==> p == Lookup(ps, ActiveName(s, tileProvider)).value
  {
    var ps := TilesOf(s).providers.GetOr([("OpenStreetMap", OsmEntry)]);
    match Lookup(ps, ActiveName(s, tileProvider))
    case Some(p) => p
    case None => Lookup(ps, "OpenStreetMap").GetOr(OsmEntry)
  }

  /** A tile layer added to the map: its tiles (a folium name or a URL), attribution and layer name. */
  datatype TileLayer = TileLayer(tiles: string, attr: Option<string>, name: string)

  /** The `folium.Map(...)` call: its default tiles (`None` = no tiles) and zoom levels. */
  datatype Base = Base(tiles: Option<string>, zoom: int, minZoom: int, maxZoom: int)

  /** The map and its first tile layers, as chosen for the active provider. */
  function BaseMap(s: MapSettings, tileProvider: Option<string>): (r: (Base, seq<TileLayer>))
    ensures r.0.zoom == s.zoom.GetOr(10) && r.0.minZoom == s.minZoom.GetOr(5) && r.0.maxZoom == s.maxZoom.GetOr(12)
    ensures var p := ActiveProvider(s, tileProvider);
            if p.tiles.Some?
            then r.0.tiles.None? && r.1 == [TileLayer(p.tiles.value, Some(p.attr.GetOr("")), p.name.GetOr(ActiveName(s, tileProvider)))]
            else r.0.tiles == Some(p.name.GetOr("OpenStreetMap")) && r.1 == []
  {
    var p := ActiveProvider(s, tileProvider);
    var name := ActiveName(s, tileProvider);
    var zoom, minZoom, maxZoom := s.zoom.GetOr(10), s.minZoom.GetOr(5), s.maxZoom.GetOr(12);
    if p.tiles.Some? then
      (Base(None, zoom, minZoom, maxZoom), [TileLayer(p.tiles.value, Some(p.attr.GetOr("")), p.name.GetOr(name))])
    else
      (Base(Some(p.name.GetOr("OpenStreetMap")), zoom, minZoom, maxZoom), [])
  }

  /** A switchable layer for a provider: its folium name if folium knows it, else its URL with an attribution. */
  function ProviderLayer(name: string, cfg: Provider, builtin: string -> bool): (l: TileLayer)
    ensures l.name == name
  {
    var tiles := cfg.name.GetOr(name);
    if builtin(tiles) then TileLayer(tiles, None, name)
    else TileLayer(cfg.tiles.GetOr(tiles), Some(cfg.attr.GetOr("© Map contributors")), name)
  }

  /** The provider the loop leaves out as already added: the argument, or the configured default. */
  predicate Skipped(tc: TilesConfig, tileProvider: Option<string>, name: string) {
    (Given(tileProvider) && name == tileProvider.value) || (!Given(tileProvider) && tc.default == Some(name))
  }

  /** A provider the loop adds: neither skipped nor the preferred one. */
  predicate Kept(tc: TilesConfig, tileProvider: Option<string>, preferred: string, name: string) {
    !Skipped(tc, tileProvider, name) && name != preferred
  }

  function Names(ps: seq<(string, Provider)>): set<string> {
    set p | p in ps :: p.0
  }

  /** The layers the provider loop adds: every kept provider, in order. */
  function OtherLayers(ps: seq<(string, Provider)>, tc: TilesConfig, tileProvider: Option<string>, preferred: string,
                       builtin: string -> bool): seq<TileLayer>
  {
    if |ps| == 0 then []
    else
      var front := OtherLayers(ps[..|ps| - 1], tc, tileProvider, preferred, builtin);
      var p := ps[|ps| - 1];
      if Kept(tc, tileProvider, preferred, p.0) then front + [ProviderLayer(p.0, p.1, builtin)] else front
  }

  /** The loop adds kept providers only, and every kept provider. */
  lemma {:induction false} OtherLayersKept(ps: seq<(string, Provider)>, tc: TilesConfig, tileProvider: Option<string>,
                                          preferred: string, builtin: string -> bool)
    ensures forall l :: l in OtherLayers(ps, tc, tileProvider, preferred, builtin) ==>
              Kept(tc, tileProvider, preferred, l.name) && l.name in Names(ps)
    ensures forall p :: p in ps && Kept(tc, tileProvider, preferred, p.0) ==>
              ProviderLayer(p.0, p.1, builtin) in OtherLayers(ps, tc, tileProvider, preferred, builtin)
    decreases |ps|
  {
    if |ps| > 0 {
      var front := ps[..|ps| - 1];
      OtherLayersKept(front, tc, tileProvider, preferred, builtin);
      assert ps == front + [ps[|ps| - 1]];
      assert Names(ps) == Names(front) + {ps[|ps| - 1].0};
    }
  }

  /** The preferred provider's layer, added last unless it is the one already active. */
  function PreferredLayer(ps: seq<(string, Provider)>, tc: TilesConfig, tileProvider: Option<string>, preferred: string,
                          builtin: string -> bool): (ls: seq<TileLayer>)
    ensures |ls| <= 1
    ensures ls != [] <==> Lookup(ps, preferred).Some? && !Skipped(tc, tileProvider, preferred)
    ensures ls != [] ==> ls[0].name == preferred
  {
    if Lookup(ps, preferred).Some? && !Skipped(tc, tileProvider, preferred)
    then [ProviderLayer(preferred, Lookup(ps, preferred).value, builtin)]
    else []
  }

  /** `MAP_SETTINGS["tiles"]["preferred"]`, "CartoDB" when absent. */
  function Preferred(s: MapSettings): string {
    TilesOf(s).preferred.GetOr("CartoDB")
  }

  /** All the switchable layers `include_all_tiles` adds. */
  function ExtraLayers(s: MapSettings, tileProvider: Option<string>, builtin: string -> bool): seq<TileLayer> {
    var tc := TilesOf(s);
    var ps := tc.providers.GetOr([]);
    OtherLayers(ps, tc, tileProvider, Preferred(s), builtin) + PreferredLayer(ps, tc, tileProvider, Preferred(s), builtin)
  }

  /** The `include_all_tiles` block: one pass over the providers, then the preferred one. */
  method AddTileLayers(s: MapSettings, tileProvider: Option<string>, builtin: string -> bool) returns (layers: seq<TileLayer>)
    ensures layers == ExtraLayers(s, tileProvider, builtin)
  {
    var tc := TilesOf(s);
    var ps := tc.providers.GetOr([]);
    var preferred := Preferred(s);
    layers := [];
    var i := 0;
    while i < |ps|
      invariant i <= |ps|
      invariant layers == OtherLayers(ps[..i], tc, tileProvider, preferred, builtin)
    {
      var (name, cfg) := ps[i];
      assert ps[..i + 1][..i] == ps[..i];
      if Kept(tc, tileProvider, preferred, name) {
        layers := layers + [ProviderLayer(name, cfg, builtin)];
      }
      i := i + 1;
    }
    assert ps[..i] == ps;
    if Lookup(ps, preferred).Some? && !Skipped(tc, tileProvider, preferred) {
      layers := layers + [ProviderLayer(preferred, Lookup(ps, preferred).value, builtin)];
    }
  }

  /**
   * The preferred provider comes last and only once, when it is not the active one; every
   * other provider except the active one is added, and the active one is not repeated.
   */
  lemma {:induction false} ExtraLayersOrder(s: MapSettings, tileProvider: Option<string>, builtin: string -> bool)
    requires Given(tileProvider) || TilesOf(s).default.Some?
    ensures var ls := ExtraLayers(s, tileProvider, builtin);
            var ps := TilesOf(s).providers.GetOr([]);
            (forall l :: l in ls ==> l.name != ActiveName(s, tileProvider) && l.name in Names(ps)) &&
            (forall j :: 0 <= j < |ls| - 1 ==> ls[j].name != Preferred(s)) &&
            (ls != [] && ls[|ls| - 1].name == Preferred(s) <==>
               Preferred(s) in Names(ps) && Preferred(s) != ActiveName(s, tileProvider)) &&
            (forall p :: p in ps && p.0 != Preferred(s) && p.0 != ActiveName(s, tileProvider) ==>
               ProviderLayer(p.0, p.1, builtin) in ls)
  {
    var tc := TilesOf(s);
    var ps := tc.providers.GetOr([]);
    var other := OtherLayers(ps, tc, tileProvider, Preferred(s), builtin);
    var pref := PreferredLayer(ps, tc, tileProvider, Preferred(s), builtin);
    OtherLayersKept(ps, tc, tileProvider, Preferred(s), builtin);
    LookupNames(ps, Preferred(s));
    var ls := other + pref;
    assert forall j :: 0 <= j < |other| ==> ls[j] == other[j] && other[j] in other;
  }

  lemma {:induction false} LookupNames(ps: seq<(string, Provider)>, name: string)
    ensures Lookup(ps, name).Some? <==> name in Names(ps)
    decreases |ps|
  {
    if |ps| > 0 {
      LookupNames(ps[1..], name);
      assert ps == [ps[0]] + ps[1..];
      assert Names(ps) == {ps[0].0} + Names(ps[1..]);
    }
  }

  /** With the shipped settings and no argument, the locations map offers Satellite, Dark and Topographic, then CartoDB. */
  lemma {:induction false} ShippedExtraLayers(builtin: string -> bool)
    ensures var ls := ExtraLayers(Config.Settings, None, builtin);
            |ls| == 4 && ls[0].name == "Satellite" && ls[1].name == "Dark" && ls[2].name == "Topographic" && ls[3].name == "CartoDB"
  {
    var tc := TilesOf(Config.Settings);
    var ps := tc.providers.value;
    var o1 := OtherLayers(ps[..1], tc, None, "CartoDB", builtin);
    assert o1 == [] by {
      assert ps[..1][..0] == [];
      assert OtherLayers(ps[..1][..0], tc, None, "CartoDB", builtin) == [];
      assert ps[..1][0] == ps[0] && ps[0].0 == "OpenStreetMap";
      assert !Kept(tc, None, "CartoDB", "OpenStreetMap");
    }
    var o2 := OtherLayers(ps[..2], tc, None, "CartoDB", builtin);
    assert ps[..2][..1] == ps[..1];
    assert o2 == [];
    var o3 := OtherLayers(ps[..3], tc, None, "CartoDB", builtin);
    assert ps[..3][..2] == ps[..2];
    assert |o3| == 1 && o3[0].name == "Satellite";
    var o4 := OtherLayers(ps[..4], tc, None, "CartoDB", builtin);
    assert ps[..4][..3] == ps[..3];
    assert |o4| == 2 && o4[1].name == "Dark";
    var o5 := OtherLayers(ps, tc, None, "CartoDB", builtin);
    assert ps[..5] == ps && ps[..5][..4] == ps[..4];
    assert |o5| == 3 && o5[2].name == "Topographic";
    assert Lookup(ps, "CartoDB").Some?;
  }

  /** With the shipped settings the Satellite provider has its own tile URL, so the map gets no default tiles. */
  lemma {:induction false} SatelliteBase()
    ensures BaseMap(Config.Settings, Some("Satellite")).0.tiles.None?
    ensures |BaseMap(Config.Settings, Some("Satellite")).1| == 1
    ensures BaseMap(Config.Settings, Some("Satellite")).1[0].name == "Satellite"
    ensures BaseMap(Config.Settings, Some("Satellite")).1[0].attr == Some("Esri")
  {
    var ps := TilesOf(Config.Settings).providers.value;
    assert Lookup(ps, "Satellite") == Some(ps[2].1);
  }

  /** An unknown provider name falls back to the OpenStreetMap entry. */
  lemma {:induction false} UnknownProviderFallsBack(s: MapSettings, name: string)
    requires name != ""
    requires var ps := TilesOf(s).providers.GetOr([("OpenStreetMap", OsmEntry)]);
             Lookup(ps, name).None? && Lookup(ps, "OpenStreetMap").Some?
    ensures ActiveProvider(s, Some(name)) == Lookup(TilesOf(s).providers.GetOr([("OpenStreetMap", OsmEntry)]), "OpenStreetMap").value
  {
  }

  // ---------------------------------------------------------------------------
  // Colours

  /** `feature["properties"]`, which must be a dictionary for `.get`. */
  function Properties(f: Json): (r: Result<Json, Exc>)
    ensures r.Success? ==> r.value.JObj?
  {
    var p :- At(f, "properties");
    if p.JObj? then Success(p) else Failure(Exc(AttributeError, "'" + TypeName(p) + "' object has no attribute 'get'"))
  }

  /** `feature["properties"].get("name", "Unknown")`. */
  function NameOf(f: Json): Result<Json, Exc> {
    var p :- Properties(f);
    GetOr(p, "name", JStr("Unknown"))
  }

  predicate Hashable(j: Json) {
    !j.JArr? && !j.JObj?
  }

  /** The set of isochrone names, `{f["properties"].get("name", "Unknown") for f in features}`. */
  function FeatureNames(features: seq<Json>): (r: Result<set<Json>, Exc>)
    ensures r.Success? ==> forall f :: f in features ==> NameOf(f).Success? && NameOf(f).value in r.value
    ensures r.Success? ==> forall n :: n in r.value ==> Hashable(n) && exists f :: f in features && NameOf(f) == Success(n)
  {
    if |features| == 0 then Success({})
    else
      var n := |features| - 1;
      var front :- FeatureNames(features[..n]);
      var name :- NameOf(features[n]);
      assert forall f :: f in features ==> f in features[..n] || f == features[n];
      if !Hashable(name) then Failure(Exc(TypeError, "unhashable type: '" + TypeName(name) + "'"))
      else Success(front + {name})
  }

  /** A sequence listing each element of `names` exactly once: the order in which Python iterates the set. */
  predicate Enumerates(order: seq<Json>, names: set<Json>) {
    (forall i, j :: 0 <= i < j < |order| ==> order[i] != order[j]) && (set n | n in order) == names
  }

  /**
   * The colour loop of `generate_maps`: the name at position idx of the set's iteration
   * order gets `palette[idx % len(palette)]`; an empty palette with at least one name
   * fails on the modulo.
   */
  method AssignColors(names: set<Json>, order: seq<Json>, palette: seq<string>) returns (r: Result<map<Json, string>, Exc>)
    requires Enumerates(order, names)
    ensures r.Failure? <==> |palette| == 0 && names != {}
    ensures r.Failure? ==> r.error == Exc(ZeroDivisionError, "integer modulo by zero")
    ensures r.Success? ==> r.value.Keys == names
    ensures r.Success? ==> forall i :: 0 <= i < |order| ==> r.value[order[i]] == palette[i % |palette|]
    ensures r.Success? ==> r.value == ColourMap(order, palette)
  {
    var colors: map<Json, string> := map[];
    var idx := 0;
    while idx < |order|
      invariant idx <= |order|
      invariant |palette| == 0 ==> idx == 0
      invariant colors == ColourMap(order[..idx], palette)
    {
      if |palette| == 0 {
        assert order[0] in names;
        return Failure(Exc(ZeroDivisionError, "integer modulo by zero"));
      }
      ColourMapStep(order, idx, palette);
      colors := colors[order[idx] := palette[idx % |palette|]];
      idx := idx + 1;
    }
    assert order[..idx] == order;
    assert |palette| == 0 ==> order == [];
    if |palette| > 0 {
      ColourMapSpec(order, palette);
    }
    r := Success(colors);
  }

  /** The colours the loop assigns: position i of the iteration order gets `palette[i % len(palette)]`. */
  function ColourMap(order: seq<Json>, palette: seq<string>): map<Json, string> {
    if |order| == 0 || |palette| == 0 then map[]
    else
      var n := |order| - 1;
      ColourMap(order[..n], palette)[order[n] := palette[n % |palette|]]
  }

  /** Over distinct names the colour map has exactly those names, each with its position's entry. */
  lemma {:induction false} ColourMapSpec(order: seq<Json>, palette: seq<string>)
    requires |palette| > 0
    requires forall i, j :: 0 <= i < j < |order| ==> order[i] != order[j]
    ensures ColourMap(order, palette).Keys == set n | n in order
    ensures forall i :: 0 <= i < |order| ==> ColourMap(order, palette)[order[i]] == palette[i % |palette|]
  {
    ColourMapKeys(order, palette);
    ColourMapValues(order, palette);
  }

  lemma {:induction false} ColourMapKeys(order: seq<Json>, palette: seq<string>)
    requires |palette| > 0
    ensures ColourMap(order, palette).Keys == set n | n in order
  {
    if |order| > 0 {
      var n := |order| - 1;
      ColourMapKeys(order[..n], palette);
      assert forall x :: x in order <==> x in order[..n] || x == order[n];
    }
  }

  lemma {:induction false} ColourMapValues(order: seq<Json>, palette: seq<string>)
    requires |palette| > 0
    requires forall i, j :: 0 <= i < j < |order| ==> order[i] != order[j]
    ensures forall i :: 0 <= i < |order| ==> order[i] in ColourMap(order, palette)
    ensures forall i :: 0 <= i < |order| ==> ColourMap(order, palette)[order[i]] == palette[i % |palette|]
  {
    if |order| > 0 {
      var n := |order| - 1;
      var front := order[..n];
      ColourMapValues(front, palette);
      forall i | 0 <= i < n
        ensures order[i] in ColourMap(order, palette) && ColourMap(order, palette)[order[i]] == palette[i % |palette|]
      {
        assert order[i] == front[i] && order[i] != order[n];
      }
    }
  }

  lemma {:induction false} ColourMapStep(order: seq<Json>, idx: nat, palette: seq<string>)
    requires idx < |order| && |palette| > 0
    ensures ColourMap(order[..idx + 1], palette) == ColourMap(order[..idx], palette)[order[idx] := palette[idx % |palette|]]
  {
    assert order[..idx + 1][..idx] == order[..idx];
  }

  /**
   * `feature_colors` as `generate_maps` builds it: the set of names, then the palette entry of
   * each name's position in `order`, the set's iteration order.
   */
  function Colours(s: MapSettings, features: seq<Json>, order: seq<Json>): (r: Result<map<Json, string>, Exc>)
    ensures FeatureNames(features).Failure? ==> r == Failure(FeatureNames(features).error)
    ensures FeatureNames(features).Success? && s.colors.None? ==> r == Failure(Exc(KeyError, KeyRepr("colors")))
    ensures r.Success? ==> s.colors.Some? && r.value == ColourMap(order, s.colors.value)
  {
    var names :- FeatureNames(features);
    if s.colors.None? then Failure(Exc(KeyError, KeyRepr("colors")))
    else if |s.colors.value| == 0 && names != {} then Failure(Exc(ZeroDivisionError, "integer modulo by zero"))
    else Success(ColourMap(order, s.colors.value))
  }

  /**
   * With at most as many names as palette entries, and palette entries that denote
   * different colours, distinct names are drawn in different colours.
   */
  lemma {:induction false} ColorsDistinct(order: seq<Json>, palette: seq<string>, colors: map<Json, string>)
    requires |palette| > 0 && |order| <= |palette|
    requires forall i, j :: 0 <= i < j < |palette| ==> Colour(palette[i]) != Colour(palette[j])
    requires forall i :: 0 <= i < |order| ==> order[i] in colors && colors[order[i]] == palette[i % |palette|]
    ensures forall i, j :: 0 <= i < j < |order| ==> Colour(colors[order[i]]) != Colour(colors[order[j]])
  {
    forall i, j | 0 <= i < j < |order|
      ensures Colour(colors[order[i]]) != Colour(colors[order[j]])
    {
      assert colors[order[i]] == palette[i] by { ModSmall(i, |palette|); }
      assert colors[order[j]] == palette[j] by { ModSmall(j, |palette|); }
    }
  }

  lemma ModSmall(i: nat, n: nat)
    requires i < n
    ensures i % n == i
  {
  }

  /** A hex digit in upper case. */
  function HexUpper(c: char): char {
    if 'a' <= c <= 'f' then (c as int - 32) as char else c
  }

  /**
   * The colour a CSS hex string denotes, as `#RRGGBB` in upper case: the three-digit
   * shorthand `#RGB` stands for `#RRGGBB`; any other text is taken as it is.
   */
  function Colour(hex: string): (c: string)
    ensures |hex| == 4 && hex[0] == '#' ==> |c| == 7 && c[1] == c[2] && c[3] == c[4] && c[5] == c[6]
  {
    if |hex| == 4 && hex[0] == '#' then
      var r, g, b := HexUpper(hex[1]), HexUpper(hex[2]), HexUpper(hex[3]);
      ['#', r, r, g, g, b, b]
    else if |hex| == 7 && hex[0] == '#' then
      ['#', HexUpper(hex[1]), HexUpper(hex[2]), HexUpper(hex[3]), HexUpper(hex[4]), HexUpper(hex[5]), HexUpper(hex[6])]
    else hex
  }

  /**
   * The palette as configured names 25 entries but three colours twice: "Orange" and
   * "Amber" (`#FF9900` and `#F90`), "Lime" and "Dark Lime" (`#66AA00` and `#6A0`), and
   * "Plum" and "Slate" (both `#969`).
   */
  lemma {:induction false} ShippedPaletteRepeats()
    ensures |Config.Palette| == 25
    ensures Colour(Config.Palette[2]) == Colour(Config.Palette[14]) == "#FF9900"
    ensures Colour(Config.Palette[7]) == Colour(Config.Palette[22]) == "#66AA00"
    ensures Config.Palette[23] == Config.Palette[24]
  {
    assert Config.Palette[14] == "#F90" && Config.Palette[22] == "#6A0";
  }

  /** With the shipped palette, the 3rd and 15th isochrone names are drawn in the same colour. */
  lemma {:induction false} ShippedColoursClash(order: seq<Json>, colors: map<Json, string>)
    requires |order| == 15
    requires forall i :: 0 <= i < |order| ==> order[i] in colors && colors[order[i]] == Config.Palette[i % |Config.Palette|]
    ensures Colour(colors[order[2]]) == Colour(colors[order[14]])
  {
    ShippedPaletteRepeats();
  }

  /**
   * The palette with "Amber", "Dark Lime" and "Slate" given colours of their own, every
   * entry written out as `#RRGGBB`; all 25 colours differ.
   */
  const CorrectedPalette: seq<string> := [
    "#3366CC", "#DC3912", "#FF9900", "#109618", "#990099", "#0099C6",
    "#DD4477", "#66AA00", "#B82E2E", "#316395", "#994499", "#22AA99", "#AAAA11",
    "#6699CC", "#FFBF00", "#99CC66", "#CC6699", "#999966", "#666699", "#66CCCC", "#CC9966", "#CC6666",
    "#4C7300", "#996699", "#708090"]

  /** `MAP_SETTINGS` with the corrected palette. */
  const CorrectedSettings := Config.Settings.(colors := Some(CorrectedPalette))

  /** Every corrected entry is a colour in canonical form. */
  lemma {:induction false} CorrectedPaletteCanonical()
    ensures |CorrectedPalette| == 25
    ensures forall i :: 0 <= i < |CorrectedPalette| ==> Colour(CorrectedPalette[i]) == CorrectedPalette[i]
  {
    forall i | 0 <= i < |CorrectedPalette|
      ensures Colour(CorrectedPalette[i]) == CorrectedPalette[i]
    {
      var h := CorrectedPalette[i];
      assert |h| == 7 && h[0] == '#';
      assert forall k :: 1 <= k < 7 ==> !('a' <= h[k] <= 'f');
    }
  }

  /** The corrected entries are 25 different strings. */
  lemma {:induction false} CorrectedPaletteUnique()
    ensures |CorrectedPalette| == 25
    ensures forall i, j :: 0 <= i < j < |CorrectedPalette| ==> CorrectedPalette[i] != CorrectedPalette[j]
  {
  }

  /** All 25 corrected entries denote different colours. */
  lemma {:induction false} CorrectedPaletteDistinct()
    ensures |CorrectedPalette| == 25
    ensures forall i, j :: 0 <= i < j < |CorrectedPalette| ==> Colour(CorrectedPalette[i]) != Colour(CorrectedPalette[j])
  {
    CorrectedPaletteCanonical();
    CorrectedPaletteUnique();
  }

  /**
   * With the corrected palette (the one `CorrectedSettings` carries), up to 25 isochrone
   * names are all drawn in different colours.
   */
  lemma {:induction false} CorrectedColoursDistinct(order: seq<Json>, colors: map<Json, string>)
    requires |order| <= |CorrectedPalette|
    requires forall i :: 0 <= i < |order| ==> order[i] in colors && colors[order[i]] == CorrectedPalette[i % |CorrectedPalette|]
    ensures CorrectedSettings.colors == Some(CorrectedPalette)
    ensures forall i, j :: 0 <= i < j < |order| ==> Colour(colors[order[i]]) != Colour(colors[order[j]])
  {
    CorrectedPaletteDistinct();
    ColorsDistinct(order, CorrectedPalette, colors);
  }

  // ---------------------------------------------------------------------------
  // Draw order and labels

  /** `feature["properties"].get("value", 0)`. */
  function ValueOf(f: Json): Result<Json, Exc> {
    var p :- Properties(f);
    GetOr(p, "value", JNum(0))
  }

  predicate Numeric(v: Json) {
    v.JNum? || v.JBool?
  }

  /** A feature with its sort key. */
  type Keyed = (Json, int)

  /**
   * Whether Python's `a < b` is defined: numbers (and booleans) compare with each other,
   * strings with strings and lists with lists; `None` and dicts compare with nothing.
   */
  predicate Comparable(a: Json, b: Json) {
    || (Numeric(a) && Numeric(b))
    || (a.JStr? && b.JStr?)
    || (a.JArr? && b.JArr?)
  }

  /** Every two values can be compared, so sorting them raises nothing. */
  predicate Orderable(values: seq<Json>) {
    forall i, j :: 0 <= i < |values| && 0 <= j < |values| ==> Comparable(values[i], values[j])
  }

  /** The first value from position `k` on that cannot be compared with the first value. */
  function FirstClash(values: seq<Json>, k: nat): (r: Option<nat>)
    requires 0 < k <= |values|
    ensures r.Some? ==> k <= r.value < |values| && !Comparable(values[0], values[r.value])
    ensures r.None? ==> forall j :: k <= j < |values| ==> Comparable(values[0], values[j])
    decreases |values| - k
  {
    if k == |values| then None
    else if !Comparable(values[0], values[k]) then Some(k)
    else FirstClash(values, k + 1)
  }

  /** Two or more values sort without error exactly when none clashes with the first. */
  lemma {:induction false} FirstClashOrderable(values: seq<Json>)
    requires |values| >= 2
    ensures FirstClash(values, 1).None? <==> Orderable(values)
  {
    if FirstClash(values, 1).None? {
      assert Comparable(values[0], values[1]);
      forall i, j | 0 <= i < |values| && 0 <= j < |values|
        ensures Comparable(values[i], values[j])
      {
        assert Comparable(values[0], values[i]) && Comparable(values[0], values[j]);
      }
    }
  }

  /**
   * The sort keys, computed for every feature before any comparison. Sorting two or more
   * values that cannot all be compared raises `TypeError`. A number is its own key; every
   * other value gets the key 0. Python orders strings among strings and lists among lists,
   * so the two orders differ once such values differ; but a non-empty string or list then
   * fails at `value // 60` in `Label`, so a drawing that succeeds holds only "" or only []
   * besides numbers, and those are equal in Python too.
   */
  function Keys(features: seq<Json>): (r: Result<seq<Keyed>, Exc>)
    ensures r.Success? ==> (|r.value| == |features| && forall i :: 0 <= i < |features| ==> r.value[i].0 == features[i])
    ensures Values(features).Failure? ==> r == Failure(Values(features).error)
    ensures Values(features).Success? ==>
              && (r.Success? <==> |features| < 2 || Orderable(Values(features).value))
              && (r.Failure? ==> r.error.cls == TypeError)
              && (r.Success? ==> r.value == Pair(features, Values(features).value))
  {
    var values :- Values(features);
    if |features| >= 2 then
      FirstClashOrderable(values);
      match FirstClash(values, 1)
      case Some(j) =>
        Failure(Exc(TypeError, "'<' not supported between instances of '" + TypeName(values[0]) + "' and '" + TypeName(values[j]) + "'"))
      case None => Success(Pair(features, values))
    else
      Success(Pair(features, values))
  }

  /** The key of one value: a number's own value, 0 for anything else. */
  function KeyOf(v: Json): int {
    if Numeric(v) then NumVal(v) else 0
  }

  function Pair(features: seq<Json>, values: seq<Json>): (r: seq<Keyed>)
    requires |values| == |features|
    ensures |r| == |features| && forall i :: 0 <= i < |features| ==> r[i] == (features[i], KeyOf(values[i]))
  {
    if |features| == 0 then []
    else
      var n := |features| - 1;
      Pair(features[..n], values[..n]) + [(features[n], KeyOf(values[n]))]
  }

  function Values(features: seq<Json>): (r: Result<seq<Json>, Exc>)
    ensures r.Success? ==> |r.value| == |features| && forall i :: 0 <= i < |features| ==> ValueOf(features[i]) == Success(r.value[i])
  {
    if |features| == 0 then Success([])
    else
      var n := |features| - 1;
      match Values(features[..n])
      case Failure(e) => Failure(e)
      case Success(front) =>
        match ValueOf(features[n])
        case Failure(e) => Failure(e)
        case Success(v) => Success(front + [v])
  }

  predicate NonIncreasing(s: seq<Keyed>) {
    forall i, j :: 0 <= i < j < |s| ==> s[i].1 >= s[j].1
  }

  /** Puts `x` before the first element whose key is not larger, i.e. ahead of its equals. */
  function InsertDesc(x: Keyed, s: seq<Keyed>): (r: seq<Keyed>)
    ensures multiset(r) == multiset(s) + multiset{x}
  {
    if s == [] || s[0].1 <= x.1 then [x] + s
    else
      assert s == [s[0]] + s[1..];
      [s[0]] + InsertDesc(x, s[1..])
  }

  /** `sorted(..., reverse=True)` on the keys: a stable descending sort. */
  function SortDesc(s: seq<Keyed>): (r: seq<Keyed>)
    ensures multiset(r) == multiset(s)
  {
    if s == [] then []
    else
      assert s == [s[0]] + s[1..];
      InsertDesc(s[0], SortDesc(s[1..]))
  }

  /** The elements with key `k`, in order. */
  function WithKey(s: seq<Keyed>, k: int): seq<Keyed> {
    if s == [] then [] else (if s[0].1 == k then [s[0]] else []) + WithKey(s[1..], k)
  }

  lemma {:induction false} InsertDescSorted(x: Keyed, s: seq<Keyed>)
    requires NonIncreasing(s)
    ensures NonIncreasing(InsertDesc(x, s))
    decreases |s|
  {
    if !(s == [] || s[0].1 <= x.1) {
      InsertDescSorted(x, s[1..]);
      var t := InsertDesc(x, s[1..]);
      forall e | e in t
        ensures e.1 <= s[0].1
      {
        assert e in multiset(t);
        assert e in multiset(s[1..]) || e == x;
      }
    }
  }

  lemma {:induction false} SortDescSorted(s: seq<Keyed>)
    ensures NonIncreasing(SortDesc(s))
    decreases |s|
  {
    if s != [] {
      SortDescSorted(s[1..]);
      InsertDescSorted(s[0], SortDesc(s[1..]));
    }
  }

  lemma {:induction false} InsertDescStable(x: Keyed, s: seq<Keyed>, k: int)
    ensures WithKey(InsertDesc(x, s), k) == (if x.1 == k then [x] else []) + WithKey(s, k)
    decreases |s|
  {
    if s == [] || s[0].1 <= x.1 {
      assert ([x] + s)[1..] == s;
    } else {
      var t := InsertDesc(x, s[1..]);
      InsertDescStable(x, s[1..], k);
      assert ([s[0]] + t)[1..] == t;
      if x.1 == k {
        assert s[0].1 != k;
      }
    }
  }

  /** Features with equal values keep their input order. */
  lemma {:induction false} SortDescStable(s: seq<Keyed>, k: int)
    ensures WithKey(SortDesc(s), k) == WithKey(s, k)
    decreases |s|
  {
    if s != [] {
      SortDescStable(s[1..], k);
      InsertDescStable(s[0], SortDesc(s[1..]), k);
    }
  }

  /** `f"{value // 60} minutes" if value else "Unknown"`. */
  function Label(v: Json): (r: Result<string, Exc>)
    ensures !Truthy(v) ==> r == Success("Unknown")
    ensures Truthy(v) && Numeric(v) ==> r == Success(PyText.IntToString(NumVal(v) / 60) + " minutes")
    ensures r.Failure? <==> Truthy(v) && !Numeric(v)
  {
    if !Truthy(v) then Success("Unknown")
    else if Numeric(v) then Success(PyText.IntToString(NumVal(v) / 60) + " minutes")
    else Failure(Exc(TypeError, "unsupported operand type(s) for //: '" + TypeName(v) + "' and 'int'"))
  }

  /** One isochrone as drawn: the feature, its name, tooltip label and fill colour. */
  datatype Drawn = Drawn(feature: Json, name: Json, tooltip: string, color: string)

  function DrawOne(f: Json, colors: map<Json, string>): Result<Drawn, Exc> {
    var name :- NameOf(f);
    var value :- ValueOf(f);
    var tooltip :- Label(value);
    Success(Drawn(f, name, tooltip, if name in colors then colors[name] else "gray"))
  }

  function DrawAll(sorted: seq<Keyed>, colors: map<Json, string>): (r: Result<seq<Drawn>, Exc>)
    ensures r.Success? ==> (|r.value| == |sorted| && forall i :: 0 <= i < |sorted| ==> DrawOne(sorted[i].0, colors) == Success(r.value[i]))
  {
    if |sorted| == 0 then Success([])
    else
      var n := |sorted| - 1;
      match DrawAll(sorted[..n], colors)
      case Failure(e) => Failure(e)
      case Success(front) =>
        match DrawOne(sorted[n].0, colors)
        case Failure(e) => Failure(e)
        case Success(d) => Success(front + [d])
  }

  /** The isochrones in drawing order: largest value first, ties in input order, each labelled and coloured. */
  function Draws(features: seq<Json>, colors: map<Json, string>): Result<seq<Drawn>, Exc> {
    match Keys(features)
    case Failure(e) => Failure(e)
    case Success(keyed) => DrawAll(SortDesc(keyed), colors)
  }

  /** The features of a keyed sequence, in order. */
  function Firsts(s: seq<Keyed>): (r: seq<Json>)
    ensures |r| == |s| && forall i :: 0 <= i < |s| ==> r[i] == s[i].0
  {
    seq(|s|, i requires 0 <= i < |s| => s[i].0)
  }

  function Features(ds: seq<Drawn>): (r: seq<Json>)
    ensures |r| == |ds| && forall i :: 0 <= i < |ds| ==> r[i] == ds[i].feature
  {
    seq(|ds|, i requires 0 <= i < |ds| => ds[i].feature)
  }

  /** Every feature is drawn exactly once, in the sorted order. */
  lemma {:induction false} DrawsPermutation(features: seq<Json>, colors: map<Json, string>)
    requires Draws(features, colors).Success?
    ensures Features(Draws(features, colors).value) == Firsts(SortDesc(Keys(features).value))
    ensures multiset(Features(Draws(features, colors).value)) == multiset(features)
  {
    var keyed := Keys(features).value;
    var sorted := SortDesc(keyed);
    DrawAllFeatures(sorted, colors);
    assert features == Firsts(keyed);
    SortDescFirsts(keyed);
  }

  lemma {:induction false} DrawAllFeatures(sorted: seq<Keyed>, colors: map<Json, string>)
    requires DrawAll(sorted, colors).Success?
    ensures Features(DrawAll(sorted, colors).value) == Firsts(sorted)
  {
    var ds := DrawAll(sorted, colors).value;
    forall i | 0 <= i < |ds|
      ensures ds[i].feature == sorted[i].0
    {
      assert DrawOne(sorted[i].0, colors) == Success(ds[i]);
    }
  }

  /** The drawn isochrones have non-increasing values, and equal values keep their input order. */
  lemma {:induction false} DrawsSortedStable(features: seq<Json>)
    requires Keys(features).Success?
    ensures NonIncreasing(SortDesc(Keys(features).value))
    ensures forall k :: WithKey(SortDesc(Keys(features).value), k) == WithKey(Keys(features).value, k)
  {
    SortDescSorted(Keys(features).value);
    forall k ensures WithKey(SortDesc(Keys(features).value), k) == WithKey(Keys(features).value, k) {
      SortDescStable(Keys(features).value, k);
    }
  }

  lemma {:induction false} WithKeyAll(s: seq<Keyed>, k: int)
    requires forall i :: 0 <= i < |s| ==> s[i].1 == k
    ensures WithKey(s, k) == s
    decreases |s|
  {
    if s != [] {
      WithKeyAll(s[1..], k);
      assert s == [s[0]] + s[1..];
    }
  }

  /**
   * Under the model's keys, values that are not numbers all get the key 0, so the sort leaves
   * the features in their input order. Python agrees when those values are all "" or all [],
   * the only non-numeric values a successful drawing can hold (`DrawsLabelAll`).
   */
  lemma {:induction false} NonNumericKeepOrder(features: seq<Json>)
    requires Keys(features).Success? && Values(features).Success?
    requires forall i :: 0 <= i < |features| ==> !Numeric(Values(features).value[i])
    ensures SortDesc(Keys(features).value) == Keys(features).value
  {
    var keyed := Keys(features).value;
    var sorted := SortDesc(keyed);
    assert forall i :: 0 <= i < |keyed| ==> keyed[i].1 == 0;
    forall i | 0 <= i < |sorted| ensures sorted[i].1 == 0 {
      assert sorted[i] in multiset(sorted);
      assert sorted[i] in multiset(keyed);
    }
    WithKeyAll(keyed, 0);
    WithKeyAll(sorted, 0);
    SortDescStable(keyed, 0);
  }

  /** Every feature a successful drawing went through had a value it could label. */
  lemma {:induction false} DrawAllLabels(sorted: seq<Keyed>, colors: map<Json, string>, x: Json)
    requires DrawAll(sorted, colors).Success? && x in Firsts(sorted)
    ensures ValueOf(x).Success? && Label(ValueOf(x).value).Success?
  {
    var j :| 0 <= j < |sorted| && Firsts(sorted)[j] == x;
    assert DrawOne(sorted[j].0, colors).Success?;
  }

  /** A drawing that succeeds labelled every value: none was a non-empty non-number. */
  lemma {:induction false} DrawsLabelAll(features: seq<Json>, colors: map<Json, string>)
    requires Draws(features, colors).Success?
    ensures Values(features).Success?
    ensures forall i :: 0 <= i < |features| ==> Label(Values(features).value[i]).Success?
  {
    var keyed := Keys(features).value;
    var sorted := SortDesc(keyed);
    assert DrawAll(sorted, colors).Success?;
    SortDescFirsts(keyed);
    assert Firsts(keyed) == features;
    forall i | 0 <= i < |features|
      ensures Label(Values(features).value[i]).Success?
    {
      assert features[i] in multiset(Firsts(sorted));
      DrawAllLabels(sorted, colors, features[i]);
      assert ValueOf(features[i]) == Success(Values(features).value[i]);
    }
  }

  /** Two isochrones whose values are both "" sort without error and are both labelled "Unknown". */
  lemma BlankValuesSort()
    ensures var f := JObj(map["properties" := JObj(map["value" := JStr("")])]);
            && Keys([f, f]) == Success([(f, 0), (f, 0)])
            && Label(JStr("")) == Success("Unknown")
  {
    var p := JObj(map["value" := JStr("")]);
    var f := JObj(map["properties" := p]);
    assert "properties" in f.fields && f.fields["properties"] == p;
    assert Properties(f) == Success(p);
    assert "value" in p.fields && p.fields["value"] == JStr("");
    assert ValueOf(f) == Success(JStr(""));
    BlankTwice(f);
  }

  /** The values of a feature listed twice are its value twice. */
  lemma {:induction false} ValuesTwice(f: Json, v: Json)
    requires ValueOf(f) == Success(v)
    ensures Values([f, f]) == Success([v, v])
  {
    assert [f][..0] == [];
    assert Values([f]) == Success([] + [v]);
    assert [] + [v] == [v];
    assert [f, f][..1] == [f] && [f, f][1] == f;
    assert Values([f, f]) == Success([v] + [v]);
    assert [v] + [v] == [v, v];
  }

  /** A feature whose value is "" listed twice sorts with the key 0 for both. */
  lemma {:induction false} BlankTwice(f: Json)
    requires ValueOf(f) == Success(JStr(""))
    ensures Keys([f, f]) == Success([(f, 0), (f, 0)])
  {
    ValuesTwice(f, JStr(""));
    var vs := [JStr(""), JStr("")];
    assert FirstClash(vs, 2) == None;
    assert FirstClash(vs, 1) == None;
    var keyed := Pair([f, f], vs);
    assert keyed[0] == (f, 0) && keyed[1] == (f, 0);
    assert keyed == [(f, 0), (f, 0)];
  }

  /** Each drawn isochrone whose name has a colour is filled with it; the others are gray. */
  lemma {:induction false} DrawsColors(features: seq<Json>, colors: map<Json, string>)
    requires Draws(features, colors).Success?
    ensures var ds := Draws(features, colors).value;
            forall i :: 0 <= i < |ds| ==>
              NameOf(ds[i].feature) == Success(ds[i].name) &&
              ds[i].color == (if ds[i].name in colors then colors[ds[i].name] else "gray")
  {
    var sorted := SortDesc(Keys(features).value);
    var ds := DrawAll(sorted, colors).value;
    forall i | 0 <= i < |ds|
      ensures NameOf(ds[i].feature) == Success(ds[i].name)
      ensures ds[i].color == (if ds[i].name in colors then colors[ds[i].name] else "gray")
    {
      DrawOneFields(sorted[i].0, colors);
    }
  }

  lemma {:induction false} DrawOneFields(f: Json, colors: map<Json, string>)
    requires DrawOne(f, colors).Success?
    ensures var d := DrawOne(f, colors).value;
            d.feature == f && NameOf(f) == Success(d.name) && d.color == (if d.name in colors then colors[d.name] else "gray")
  {
  }

  lemma {:induction false} FirstsCons(x: Keyed, s: seq<Keyed>)
    ensures Firsts([x] + s) == [x.0] + Firsts(s)
  {
  }

  /** Inserting a keyed feature adds its feature once. */
  lemma {:induction false} InsertDescFirsts(x: Keyed, s: seq<Keyed>)
    ensures multiset(Firsts(InsertDesc(x, s))) == multiset(Firsts(s)) + multiset{x.0}
    decreases |s|
  {
    if s == [] || s[0].1 <= x.1 {
      FirstsCons(x, s);
    } else {
      InsertDescFirsts(x, s[1..]);
      FirstsCons(s[0], InsertDesc(x, s[1..]));
      FirstsCons(s[0], s[1..]);
      assert s == [s[0]] + s[1..];
    }
  }

  /** Sorting moves features around but neither drops nor repeats any. */
  lemma {:induction false} SortDescFirsts(s: seq<Keyed>)
    ensures multiset(Firsts(SortDesc(s))) == multiset(Firsts(s))
    decreases |s|
  {
    if s != [] {
      SortDescFirsts(s[1..]);
      InsertDescFirsts(s[0], SortDesc(s[1..]));
      FirstsCons(s[0], s[1..]);
      assert s == [s[0]] + s[1..];
    }
  }

  /** A value of 600 seconds is labelled "10 minutes"; 0 and a missing value are "Unknown". */
  lemma {:induction false} LabelExamples()
    ensures Label(JNum(600)) == Success("10 minutes")
    ensures Label(JNum(0)) == Success("Unknown") && Label(JNull) == Success("Unknown")
  {
    assert 600 / 60 == 10;
    assert PyText.DigitChar(1) == '1' && PyText.DigitChar(0) == '0';
    assert PyText.NatToString(1) == "1";
    assert PyText.NatToString(10) == PyText.NatToString(1) + [PyText.DigitChar(0)] == "10";
    assert PyText.IntToString(10) == "10";
    assert Label(JNum(600)) == Success(PyText.IntToString(10) + " minutes");
    assert "10" + " minutes" == "10 minutes";
  }

  // ---------------------------------------------------------------------------
  // Layers and markers

  /** A `folium.FeatureGroup`: its name and initial visibility. */
  datatype Group = Group(name: string, show: bool)

  function LayerConfig(s: MapSettings, key: string): Config.LayerConfig {
    match s.layers
    case None => Config.LayerConfig(None, None)
    case Some(ls) =>
      var found := LayerLookup(ls, key);
      found.GetOr(Config.LayerConfig(None, None))
  }

  function LayerLookup(ls: seq<(string, Config.LayerConfig)>, key: string): (r: Option<Config.LayerConfig>)
    ensures r.Some? <==> exists i :: 0 <= i < |ls| && ls[i].0 == key
  {
    if |ls| == 0 then None
    else if ls[0].0 == key then Some(ls[0].1)
    else
      var r := LayerLookup(ls[1..], key);
      assert r.Some? ==> forall i :: 0 <= i < |ls| - 1 ==> ls[1..][i] == ls[i + 1];
      r
  }

  /** The feature groups added to the map, in order: draw, isochrones, centres, and the locations when included. */
  function Groups(s: MapSettings, includeLocations: bool): (gs: seq<Group>)
    ensures |gs| == if includeLocations then 4 else 3
    ensures includeLocations ==> gs[3].show
  {
    var draw := LayerConfig(s, "draw");
    var iso := LayerConfig(s, "isochrones");
    var centers := LayerConfig(s, "centers");
    var locations := LayerConfig(s, "locations");
    [Group(draw.name.GetOr("Draw Layer"), draw.show.GetOr(true)),
     Group(iso.name.GetOr("Isochrones"), iso.show.GetOr(true)),
     Group(centers.name.GetOr("Centers"), centers.show.GetOr(true))]
    + (if includeLocations then [Group(locations.name.GetOr("Locations"), true)] else [])
  }

  /** A marker: its label and position. */
  datatype Marker = Marker(title: Frames.Cell, lat: Frames.Cell, lon: Frames.Cell)

  /** One centre marker per centre row, labelled with the city. */
  function CenterMarkers(rows: seq<Frames.Row>): (ms: seq<Marker>)
    ensures |ms| == |rows|
  {
    seq(|rows|, i requires 0 <= i < |rows| =>
      Marker(Frames.Get(rows[i], "city", Frames.CText("Unknown")), Frames.Get(rows[i], "latitude", Frames.CNone),
             Frames.Get(rows[i], "longitude", Frames.CNone)))
  }

  /** A location row has a usable position when neither coordinate is missing. */
  predicate HasPosition(row: Frames.Row) {
    !Frames.IsNa(Frames.Get(row, "latitude", Frames.CNone)) && !Frames.IsNa(Frames.Get(row, "longitude", Frames.CNone))
  }

  function LocationMarker(row: Frames.Row): Marker {
    Marker(Frames.Get(row, "name", Frames.CText("Unknown")), Frames.Get(row, "latitude", Frames.CNone),
           Frames.Get(row, "longitude", Frames.CNone))
  }

  /** The location markers: rows with a missing coordinate are skipped, the others kept in order. */
  function LocationMarkers(rows: seq<Frames.Row>): (ms: seq<Marker>)
    ensures |ms| <= |rows|
    ensures forall m :: m in ms ==> !Frames.IsNa(m.lat) && !Frames.IsNa(m.lon)
    ensures forall r :: r in rows && HasPosition(r) ==> LocationMarker(r) in ms
  {
    if |rows| == 0 then []
    else
      var n := |rows| - 1;
      var front := LocationMarkers(rows[..n]);
      assert forall r :: r in rows ==> r in rows[..n] || r == rows[n];
      if HasPosition(rows[n]) then front + [LocationMarker(rows[n])] else front
  }

  /** What `create_map` draws. */
  datatype MapPlan = MapPlan(
    base: Base,
    tileLayers: seq<TileLayer>,
    groups: seq<Group>,
    isochrones: seq<Drawn>,
    centers: seq<Marker>,
    locations: seq<Marker>)

  /** The plan `create_map` follows, with the switchable tile layers given. */
  function PlanOf(s: MapSettings, centerRows: seq<Frames.Row>, features: seq<Json>, colors: map<Json, string>,
                  includeLocations: bool, locations: Option<Frames.Table>, tileProvider: Option<string>,
                  extra: seq<TileLayer>): (r: Result<MapPlan, Exc>)
    ensures r.Success? ==> r.value.groups == Groups(s, includeLocations)
    ensures r.Success? ==> r.value.tileLayers == BaseMap(s, tileProvider).1 + extra
    ensures r.Success? && !(includeLocations && locations.Some?) ==> r.value.locations == []
    ensures r.Success? && includeLocations && locations.Some? ==> r.value.locations == LocationMarkers(locations.value.rows)
    ensures r.Success? <==> Draws(features, colors).Success?
    ensures r.Failure? ==> r.error == Draws(features, colors).error
  {
    var (base, first) := BaseMap(s, tileProvider);
    var drawn :- Draws(features, colors);
    Success(MapPlan(base, first + extra, Groups(s, includeLocations), drawn, CenterMarkers(centerRows),
      if includeLocations && locations.Some? then LocationMarkers(locations.value.rows) else []))
  }

  /**
   * `create_map(center_coords, isochrones, feature_colors, map_center, include_locations,
   * locations_df, tile_provider, include_all_tiles)`. The map centre, the folium objects,
   * the draw tools and the injected script and style are not part of the plan.
   */
  method CreateMap(s: MapSettings, centerRows: seq<Frames.Row>, features: seq<Json>, colors: map<Json, string>,
                   includeLocations: bool, locations: Option<Frames.Table>, tileProvider: Option<string>,
                   includeAllTiles: bool, builtin: string -> bool)
    returns (r: Result<MapPlan, Exc>)
    ensures r == PlanOf(s, centerRows, features, colors, includeLocations, locations, tileProvider,
                        if includeAllTiles then ExtraLayers(s, tileProvider, builtin) else [])
  {
    var extra: seq<TileLayer> := [];
    if includeAllTiles {
      extra := AddTileLayers(s, tileProvider, builtin);
    }
    r := PlanOf(s, centerRows, features, colors, includeLocations, locations, tileProvider, extra);
  }

  // ---------------------------------------------------------------------------
  // generate_maps

  /** What `generate_maps` has loaded: the centres, the locations and the isochrone collection. */
  datatype Loaded = Loaded(centers: Frames.Table, locations: Frames.Table, isochrones: Json)

  /** `center_coords`: the centre rows with both coordinates present. */
  function WithCoordinates(rows: seq<Frames.Row>): (r: seq<Frames.Row>)
    ensures |r| <= |rows|
    ensures forall x :: x in r <==> x in rows && HasPosition(x)
  {
    if |rows| == 0 then []
    else
      var n := |rows| - 1;
      var front := WithCoordinates(rows[..n]);
      assert forall x :: x in rows <==> x in rows[..n] || x == rows[n];
      if HasPosition(rows[n]) then front + [rows[n]] else front
  }

  /** The checks of `generate_maps` on the loaded data; success gives the usable centre rows and the features. */
  function CheckLoaded(l: Loaded): (r: Result<(seq<Frames.Row>, seq<Json>), Exc>)
    ensures r.Success? ==> !Frames.Empty(l.centers) && !Frames.Empty(l.locations)
    ensures r.Success? ==> r.value.0 != [] && r.value.0 == WithCoordinates(l.centers.rows)
    ensures r.Success? ==> r.value.1 != [] && At(l.isochrones, "features") == Success(JArr(r.value.1))
    ensures Frames.Empty(l.centers) ==> r == Failure(Exc(DataAccessError, "Center data is empty."))
    ensures !Frames.Empty(l.centers) && Frames.Empty(l.locations) ==> r == Failure(Exc(DataAccessError, "Location data is empty."))
    ensures var fs := At(l.isochrones, "features");
            && (!Frames.Empty(l.centers) && !Frames.Empty(l.locations) && fs.Failure? ==> r == Failure(fs.error))
            && (!Frames.Empty(l.centers) && !Frames.Empty(l.locations) && fs.Success? && !Truthy(fs.value) ==>
                  r == Failure(Exc(DataAccessError, "Isochrone data is empty.")))
    ensures var fs := At(l.isochrones, "features");
            !Frames.Empty(l.centers) && !Frames.Empty(l.locations) && fs.Success? && Truthy(fs.value)
            && !("latitude" in l.centers.columns && "longitude" in l.centers.columns) ==>
              r == Failure(Exc(DataAccessError, "Centers data must contain 'latitude' and 'longitude' columns."))
    ensures var fs := At(l.isochrones, "features");
            !Frames.Empty(l.centers) && !Frames.Empty(l.locations) && fs.Success? && Truthy(fs.value)
            && "latitude" in l.centers.columns && "longitude" in l.centers.columns ==>
              && (WithCoordinates(l.centers.rows) == [] ==> r == Failure(Exc(DataAccessError, "No valid Center coordinates found.")))
              && (WithCoordinates(l.centers.rows) != [] ==> (r.Success? <==> fs.value.JArr?))
  {
    if Frames.Empty(l.centers) then Failure(Exc(DataAccessError, "Center data is empty."))
    else if Frames.Empty(l.locations) then Failure(Exc(DataAccessError, "Location data is empty."))
    else
      var features :- At(l.isochrones, "features");
      if !Truthy(features) then Failure(Exc(DataAccessError, "Isochrone data is empty."))
      else if !("latitude" in l.centers.columns && "longitude" in l.centers.columns) then
        Failure(Exc(DataAccessError, "Centers data must contain 'latitude' and 'longitude' columns."))
      else
        var rows := WithCoordinates(l.centers.rows);
        if rows == [] then Failure(Exc(DataAccessError, "No valid Center coordinates found."))
        else if !features.JArr? then Failure(Exc(TypeError, "'" + TypeName(features) + "' object is not iterable"))
        else Success((rows, features.items))
  }

  /** What `generate_maps` returns: the dynamic map, or the two map files it saved. */
  datatype MapOutput =
    | Dynamic(plan: MapPlan)
    | Files(centersMap: string, locationsMap: string, withoutLocations: MapPlan, withLocations: MapPlan)

  /**
   * `generate_maps` gets to a map: the loaded data pass the checks, the colours can be
   * assigned and every isochrone can be drawn.
   */
  predicate Generates(s: MapSettings, loaded: Result<Loaded, Exc>, order: seq<Json>) {
    && loaded.Success? && CheckLoaded(loaded.value).Success?
    && var features := CheckLoaded(loaded.value).value.1;
       Colours(s, features, order).Success? && Draws(features, Colours(s, features, order).value).Success?
  }

  /**
   * The output is built from the given centres, features and colours: the dynamic map with
   * the requested options, or the two static maps, the first without locations or extra tile
   * layers, the second with the locations and every tile layer.
   */
  predicate PlannedWith(s: MapSettings, locations: Frames.Table, rows: seq<Frames.Row>, features: seq<Json>,
                        colors: map<Json, string>, includeLocations: bool, tileProvider: Option<string>,
                        includeAllTiles: bool, builtin: string -> bool, out: MapOutput) {
    match out
    case Dynamic(plan) =>
      PlanOf(s, rows, features, colors, includeLocations, if includeLocations then Some(locations) else None,
             tileProvider, if includeAllTiles then ExtraLayers(s, tileProvider, builtin) else []) == Success(plan)
    case Files(centersMap, locationsMap, without, with) =>
      && centersMap == HtmlFile("city_centers") && locationsMap == HtmlFile("locations")
      && PlanOf(s, rows, features, colors, false, None, tileProvider, []) == Success(without)
      && PlanOf(s, rows, features, colors, true, Some(locations), tileProvider, ExtraLayers(s, tileProvider, builtin)) == Success(with)
  }

  /** The output is built, as `PlannedWith` says, from the checked centres and features with the assigned colours. */
  predicate Planned(s: MapSettings, l: Loaded, order: seq<Json>, includeLocations: bool,
                    tileProvider: Option<string>, includeAllTiles: bool, builtin: string -> bool, out: MapOutput) {
    && CheckLoaded(l).Success?
    && var (rows, features) := CheckLoaded(l).value;
       && Colours(s, features, order).Success?
       && PlannedWith(s, l.locations, rows, features, Colours(s, features, order).value,
                      includeLocations, tileProvider, includeAllTiles, builtin, out)
  }

  /** The decorator of `generate_maps`. */
  const GenerateMapping := map[ValueError := DataAccessError, Exception := GeoJSONError]

  /** The decorator passes each validation failure of `generate_maps` through unchanged. */
  lemma {:induction false} ValidationErrorsKept(l: Loaded)
    requires CheckLoaded(l).Failure? && CheckLoaded(l).error.cls == DataAccessError
    ensures HandleException(Result<MapOutput, Exc>.Failure(CheckLoaded(l).error), GenerateMapping) == Failure(CheckLoaded(l).error)
  {
    HandleExceptionKeepsAppErrors<MapOutput>(CheckLoaded(l).error, GenerateMapping);
  }

  /**
   * `generate_maps(use_local, include_locations, return_map_object, tile_provider,
   * include_all_tiles)` after loading: `loaded` is the outcome of the loading step
   * (including the missing-client error), `order` the iteration order of the name set.
   */
  method GenerateMaps(s: MapSettings, loaded: Result<Loaded, Exc>, includeLocations: bool, returnMapObject: bool,
                      tileProvider: Option<string>, includeAllTiles: bool, order: seq<Json>, builtin: string -> bool)
    returns (r: Result<MapOutput, Exc>)
    requires loaded.Success? && CheckLoaded(loaded.value).Success? && FeatureNames(CheckLoaded(loaded.value).value.1).Success?
             ==> Enumerates(order, FeatureNames(CheckLoaded(loaded.value).value.1).value)
    ensures loaded.Failure? ==> r == HandleException(Failure(loaded.error), GenerateMapping)
    ensures loaded.Success? && CheckLoaded(loaded.value).Failure? ==>
              r == HandleException(Failure(CheckLoaded(loaded.value).error), GenerateMapping)
    ensures loaded.Success? && CheckLoaded(loaded.value).Success? ==>
              var features := CheckLoaded(loaded.value).value.1;
              var colors := Colours(s, features, order);
              && (colors.Failure? ==> r == HandleException(Failure(colors.error), GenerateMapping))
              && (colors.Success? && Draws(features, colors.value).Failure? ==>
                    r == HandleException(Failure(Draws(features, colors.value).error), GenerateMapping))
    ensures r.Failure? ==> IsAppError(r.error.cls)
    ensures r.Success? <==> Generates(s, loaded, order)
    ensures r.Success? ==> returnMapObject == r.value.Dynamic?
    ensures r.Success? ==> Planned(s, loaded.value, order, includeLocations, tileProvider, includeAllTiles, builtin, r.value)
    ensures r.Success? && r.value.Files? ==>
              r.value.centersMap == HtmlFile("city_centers") && r.value.locationsMap == HtmlFile("locations") &&
              r.value.withoutLocations.locations == [] && |r.value.withLocations.groups| == 4
  {
    var out: Result<MapOutput, Exc>;
    out := Generate(s, loaded, includeLocations, returnMapObject, tileProvider, includeAllTiles, order, builtin);
    r := HandleException(out, GenerateMapping);
  }

  method Generate(s: MapSettings, loaded: Result<Loaded, Exc>, includeLocations: bool, returnMapObject: bool,
                  tileProvider: Option<string>, includeAllTiles: bool, order: seq<Json>, builtin: string -> bool)
    returns (r: Result<MapOutput, Exc>)
    requires loaded.Success? && CheckLoaded(loaded.value).Success? && FeatureNames(CheckLoaded(loaded.value).value.1).Success?
             ==> Enumerates(order, FeatureNames(CheckLoaded(loaded.value).value.1).value)
    ensures loaded.Failure? ==> r == Failure(loaded.error)
    ensures loaded.Success? && CheckLoaded(loaded.value).Failure? ==> r == Failure(CheckLoaded(loaded.value).error)
    ensures loaded.Success? && CheckLoaded(loaded.value).Success? ==>
              var features := CheckLoaded(loaded.value).value.1;
              var colors := Colours(s, features, order);
              && (colors.Failure? ==> r == Failure(colors.error))
              && (colors.Success? && Draws(features, colors.value).Failure? ==> r == Failure(Draws(features, colors.value).error))
    ensures r.Success? <==> Generates(s, loaded, order)
    ensures r.Success? ==> returnMapObject == r.value.Dynamic?
    ensures r.Success? ==> Planned(s, loaded.value, order, includeLocations, tileProvider, includeAllTiles, builtin, r.value)
    ensures r.Success? && r.value.Files? ==>
              r.value.centersMap == HtmlFile("city_centers") && r.value.locationsMap == HtmlFile("locations") &&
              r.value.withoutLocations.locations == [] && |r.value.withLocations.groups| == 4
  {
    if loaded.Failure? {
      return Failure(loaded.error);
    }
    var l := loaded.value;
    var checked := CheckLoaded(l);
    if checked.Failure? {
      return Failure(checked.error);
    }
    var (rows, features) := checked.value;
    var names := FeatureNames(features);
    if names.Failure? {
      return Failure(names.error);
    }
    if s.colors.None? {
      return Failure(Exc(KeyError, KeyRepr("colors")));
    }
    var colors := AssignColors(names.value, order, s.colors.value);
    if colors.Failure? {
      return Failure(colors.error);
    }
    assert colors.value == Colours(s, features, order).value;
    r := Render(s, l.locations, rows, features, colors.value, returnMapObject, includeLocations,
                tileProvider, includeAllTiles, builtin);
  }

  /**
   * The end of `generate_maps`: the dynamic map when `return_map_object`, otherwise the map
   * without locations and the map with them, each saved under its table's name.
   */
  method Render(s: MapSettings, locations: Frames.Table, rows: seq<Frames.Row>, features: seq<Json>,
                colors: map<Json, string>, returnMapObject: bool, includeLocations: bool,
                tileProvider: Option<string>, includeAllTiles: bool, builtin: string -> bool)
    returns (r: Result<MapOutput, Exc>)
    ensures r.Success? <==> Draws(features, colors).Success?
    ensures r.Failure? ==> r == Failure(Draws(features, colors).error)
    ensures r.Success? ==> returnMapObject == r.value.Dynamic?
    ensures r.Success? ==>
              PlannedWith(s, locations, rows, features, colors, includeLocations, tileProvider, includeAllTiles, builtin, r.value)
    ensures r.Success? && r.value.Files? ==>
              r.value.withoutLocations.locations == [] && |r.value.withLocations.groups| == 4
  {
    if returnMapObject {
      var plan := CreateMap(s, rows, features, colors, includeLocations,
                            if includeLocations then Some(locations) else None, tileProvider, includeAllTiles, builtin);
      if plan.Failure? {
        return Failure(plan.error);
      }
      return Success(Dynamic(plan.value));
    }
    var centersName := TableName("centers");
    var locationsName := TableName("locations");
    var without := CreateMap(s, rows, features, colors, false, None, tileProvider, false, builtin);
    if without.Failure? {
      return Failure(without.error);
    }
    var with := CreateMap(s, rows, features, colors, true, Some(locations), tileProvider, true, builtin);
    assert with.Success?;
    r := Success(Files(HtmlFile(centersName), HtmlFile(locationsName), without.value, with.value));
  }

  /** The file a static map of a table is saved to. */
  function HtmlFile(tableName: string): string {
    tableName + ".html"
  }

  /** `TABLES[key].get("table_name", key)` for the two shipped map tables. */
  function TableName(key: string): (name: string)
    requires key == "centers" || key == "locations"
    ensures key == "centers" ==> name == "city_centers"
    ensures key == "locations" ==> name == "locations"
  {
    Config.TableOfShipped(key);
    Config.TableOf(Config.Tables, key).value.tableName
  }

  // ---------------------------------------------------------------------------
  // load_isochrones_local

  /** How opening and parsing a file went: its JSON, or the exception raised. */
  datatype ReadError = FileMissing | JsonDecode | OtherFailure
  datatype Read = Parsed(json: Json) | Raised(kind: ReadError, msg: string)

  /** A file matching the pattern: its path, its stem and what reading it gives. */
  datatype IsoFile = IsoFile(path: string, stem: string, read: Read)

  /** The isochrone directory: the combined file if it exists, and the matching files in glob order. */
  datatype IsoDir = IsoDir(path: string, combined: Option<Read>, files: seq<IsoFile>)

  const FilePattern := "*_isochrones.geojson"

  /** The properties key that carries the isochrone's name: the isochrone table's "name" column. */
  function NameField(): (f: string)
    ensures f == "name"
  {
    Config.TableOfShipped("isochrones");
    var columns := Config.TableOf(Config.Tables, "isochrones").value.columns;
    assert "name" in Config.IsochroneColumns;
    if "name" in columns then columns["name"] else "name"
  }

  /** The isochrone name of a file: its stem with every "_isochrones" removed. */
  function IsochroneName(stem: string): string {
    if PyText.Contains(stem, "_isochrones") then PyText.ReplaceAll(stem, "_isochrones", "") else stem
  }

  /** A feature with a "properties" entry lacking the name field gets the file's name there. */
  function Tag(f: Json, name: string, field: string): (r: Result<Json, Exc>)
    ensures r.Success? && f.JObj? && "properties" !in f.fields ==> r.value == f
    ensures r.Success? && f.JObj? && "properties" in f.fields && f.fields["properties"].JObj? ==>
              var p := f.fields["properties"].fields;
              r.value == (if field in p then f else JObj(f.fields["properties" := JObj(p[field := JStr(name)])]))
  {
    var has :- In("properties", f);
    if !has then Success(f)
    else
      var p :- At(f, "properties");
      var present :- In(field, p);
      if present then Success(f)
      else if p.JObj? then Success(JObj(f.fields["properties" := JObj(p.fields[field := JStr(name)])]))
      else Failure(Exc(TypeError, "'" + TypeName(p) + "' object does not support item assignment"))
  }

  /** The features of one file after tagging, in order. */
  function TagAll(fs: seq<Json>, name: string, field: string): (r: Result<seq<Json>, Exc>)
    ensures r.Success? ==> |r.value| == |fs| && forall i :: 0 <= i < |fs| ==> Tag(fs[i], name, field) == Success(r.value[i])
  {
    if |fs| == 0 then Success([])
    else
      var n := |fs| - 1;
      var front :- TagAll(fs[..n], name, field);
      var t :- Tag(fs[n], name, field);
      Success(front + [t])
  }

  /** What one file contributes: its tagged features, or the error its loading raises. */
  function FileFeatures(file: IsoFile, field: string): (r: Result<seq<Json>, Exc>)
    ensures file.read.Raised? && file.read.kind == FileMissing ==> r == Failure(Exc(DataAccessError, "Isochrone file not found: " + file.path))
    ensures file.read.Raised? && file.read.kind == JsonDecode ==>
              r == Failure(Exc(GeoJSONError, "Invalid GeoJSON in " + file.path + ": " + file.read.msg))
    ensures file.read.Raised? && file.read.kind == OtherFailure ==>
              r == Failure(Exc(DataAccessError, "Failed to load isochrone file " + file.path + ": " + file.read.msg))
  {
    match file.read
    case Raised(FileMissing, _) => Failure(Exc(DataAccessError, "Isochrone file not found: " + file.path))
    case Raised(JsonDecode, msg) => Failure(Exc(GeoJSONError, "Invalid GeoJSON in " + file.path + ": " + msg))
    case Raised(OtherFailure, msg) => Failure(Exc(DataAccessError, "Failed to load isochrone file " + file.path + ": " + msg))
    case Parsed(data) =>
      var features :- GetOr(data, "features", JArr([]));
      var items :- Items(features);
      TagAll(items, IsochroneName(file.stem), field)
  }

  /** The features of the files, file after file. */
  function AllFeatures(files: seq<IsoFile>, field: string): Result<seq<Json>, Exc> {
    if |files| == 0 then Success([])
    else
      var n := |files| - 1;
      var front :- AllFeatures(files[..n], field);
      var last :- FileFeatures(files[n], field);
      Success(front + last)
  }

  /** `load_isochrones_local()`: the combined file when it exists, else the merged per-city files. */
  function LoadLocal(dir: IsoDir): (r: Result<Json, Exc>)
    ensures dir.combined.Some? && dir.combined.value.Parsed? ==> r == Success(dir.combined.value.json)
    ensures dir.combined.Some? && dir.combined.value.Raised? ==>
              r == Failure(Exc(DataAccessError, "Failed to load combined isochrones file: " + dir.combined.value.msg))
    ensures dir.combined.None? && dir.files == [] ==>
              r == Failure(Exc(DataAccessError, "No isochrone files matching '" + FilePattern + "' found in " + dir.path))
    ensures dir.combined.None? && r.Success? ==> exists fs :: fs != [] && r.value == FeatureCollection(fs)
  {
    match dir.combined
    case Some(Parsed(j)) => Success(j)
    case Some(Raised(_, msg)) => Failure(Exc(DataAccessError, "Failed to load combined isochrones file: " + msg))
    case None =>
      if dir.files == [] then
        Failure(Exc(DataAccessError, "No isochrone files matching '" + FilePattern + "' found in " + dir.path))
      else
        var fs :- AllFeatures(dir.files, NameField());
        if fs == [] then Failure(Exc(DataAccessError, "No valid isochrone features found in any file"))
        else Success(FeatureCollection(fs))
  }

  /** `load_isochrones_local()`, reading file after file and tagging feature after feature. */
  method LoadIsochronesLocal(dir: IsoDir) returns (r: Result<Json, Exc>)
    ensures r == LoadLocal(dir)
  {
    match dir.combined {
      case Some(Parsed(j)) =>
        return Success(j);
      case Some(Raised(_, msg)) =>
        return Failure(Exc(DataAccessError, "Failed to load combined isochrones file: " + msg));
      case None =>
    }
    if dir.files == [] {
      return Failure(Exc(DataAccessError, "No isochrone files matching '" + FilePattern + "' found in " + dir.path));
    }
    var field := NameField();
    var combined: seq<Json> := [];
    for i := 0 to |dir.files|
      invariant AllFeatures(dir.files[..i], field) == Success(combined)
    {
      var file := dir.files[i];
      var loaded := FileFeatures(file, field);
      if loaded.Failure? {
        AllFeaturesFails(dir.files, i, field);
        return Failure(loaded.error);
      }
      AllFeaturesStep(dir.files, i, field);
      combined := combined + loaded.value;
    }
    assert dir.files[..|dir.files|] == dir.files;
    if combined == [] {
      return Failure(Exc(DataAccessError, "No valid isochrone features found in any file"));
    }
    r := Success(FeatureCollection(combined));
  }

  /** A file that loads adds its features after those of the files before it. */
  lemma {:induction false} AllFeaturesStep(files: seq<IsoFile>, i: nat, field: string)
    requires i < |files| && AllFeatures(files[..i], field).Success? && FileFeatures(files[i], field).Success?
    ensures AllFeatures(files[..i + 1], field) == Success(AllFeatures(files[..i], field).value + FileFeatures(files[i], field).value)
  {
    assert files[..i + 1][..i] == files[..i];
  }

  /** A file that fails stops the merge with its own error. */
  lemma {:induction false} AllFeaturesFails(files: seq<IsoFile>, i: nat, field: string)
    requires i < |files| && AllFeatures(files[..i], field).Success? && FileFeatures(files[i], field).Failure?
    ensures AllFeatures(files, field) == Failure(FileFeatures(files[i], field).error)
    decreases |files|
  {
    var n := |files| - 1;
    assert files[..i + 1][..i] == files[..i];
    if i == n {
      assert files[..n] == files[..i];
    } else {
      assert files[..n][..i] == files[..i];
      AllFeaturesFails(files[..n], i, field);
    }
  }

  /** Tagging keeps a name already present and otherwise sets the file's name; nothing else changes. */
  lemma {:induction false} TagNames(f: Json, name: string, field: string)
    requires f.JObj? && "properties" in f.fields && f.fields["properties"].JObj?
    ensures Tag(f, name, field).Success?
    ensures var t := Tag(f, name, field).value;
            t.JObj? && t.fields.Keys == f.fields.Keys &&
            (forall k :: k in f.fields && k != "properties" ==> t.fields[k] == f.fields[k]) &&
            t.fields["properties"].JObj? &&
            t.fields["properties"].fields.Keys == f.fields["properties"].fields.Keys + {field} &&
            (field in f.fields["properties"].fields ==> t == f) &&
            (field !in f.fields["properties"].fields ==> t.fields["properties"].fields[field] == JStr(name))
  {
  }

  /**
   * A file written by the isochrone generator, "<city>_isochrones.geojson" with the city
   * reduced to letters and digits, names its features after that city.
   */
  lemma {:induction false} IsochroneNameOfWritten(city: string)
    requires forall i :: 0 <= i < |city| ==> city[i] != '_'
    ensures IsochroneName(city + "_isochrones") == city
  {
    var pat := "_isochrones";
    assert (city + pat)[|city|..] == pat;
    ContainsAt(city + pat, pat, |city|);
    ReplaceSuffix(city, pat);
  }

  lemma {:induction false} ReplaceSuffix(a: string, pat: string)
    requires pat != "" && forall i :: 0 <= i < |a| ==> a[i] != pat[0]
    ensures PyText.ReplaceAll(a + pat, pat, "") == a
    decreases |a|
  {
    if |a| == 0 {
      assert a + pat == pat && pat[|pat|..] == [];
    } else {
      assert (a + pat)[0] == a[0] != pat[0];
      assert (a + pat)[1..] == a[1..] + pat;
      ReplaceSuffix(a[1..], pat);
      assert a == [a[0]] + a[1..];
    }
  }

  lemma {:induction false} ContainsAt(s: string, p: string, k: nat)
    requires k <= |s| && PyText.StartsWith(s[k..], p)
    ensures PyText.Contains(s, p)
    decreases k
  {
    if k > 0 {
      assert s[1..][k - 1..] == s[k..];
      ContainsAt(s[1..], p, k - 1);
    }
  }

  // ---------------------------------------------------------------------------
  // validate_map_config

  /** The first layer without a "name", in order. */
  function Nameless(layers: seq<(string, Config.LayerConfig)>): (r: Option<string>)
    ensures r.None? <==> forall l :: l in layers ==> l.1.name.Some?
    ensures r.Some? ==> exists l :: l in layers && l.0 == r.value && l.1.name.None?
  {
    if |layers| == 0 then None
    else if layers[0].1.name.None? then Some(layers[0].0)
    else
      var r := Nameless(layers[1..]);
      assert forall l :: l in layers ==> l == layers[0] || l in layers[1..];
      r
  }

  /** The settings `create_map` depends on are present, and every layer has a name. */
  predicate ValidMapSettings(s: MapSettings) {
    s.colors.Some? && s.layers.Some? && s.zoom.Some? && forall l :: l in s.layers.value ==> l.1.name.Some?
  }

  /** `validate_map_config()` on the given settings: the first missing setting, else the first nameless layer. */
  function ValidateMapConfig(s: MapSettings): (r: Result<(), Exc>)
    ensures r.Success? <==> ValidMapSettings(s)
    ensures r.Failure? ==> r.error.cls == ConfigError
    ensures s.colors.None? ==> r.error.msg == "Missing required map setting: colors"
    ensures s.colors.Some? && s.layers.None? ==> r.error.msg == "Missing required map setting: layers"
    ensures s.colors.Some? && s.layers.Some? && s.zoom.None? ==> r.error.msg == "Missing required map setting: zoom"
    ensures s.colors.Some? && s.layers.Some? && s.zoom.Some? && Nameless(s.layers.value).Some? ==>
              r.error.msg == "Layer " + Nameless(s.layers.value).value + " missing 'name' property"
  {
    if s.colors.None? then Failure(Exc(ConfigError, "Missing required map setting: colors"))
    else if s.layers.None? then Failure(Exc(ConfigError, "Missing required map setting: layers"))
    else if s.zoom.None? then Failure(Exc(ConfigError, "Missing required map setting: zoom"))
    else match Nameless(s.layers.value)
      case Some(layer) => Failure(Exc(ConfigError, "Layer " + layer + " missing 'name' property"))
      case None => Success(())
  }

  /** The shipped map settings pass the check. */
  lemma {:induction false} ShippedSettingsValid()
    ensures ValidateMapConfig(Config.Settings) == Success(())
  {
  }
}
