# IsochroneMaps_V2 in Dafny

This project models the logic of IsochroneMaps_V2, a Python system that places addresses on the map and draws drive-time isochrones around them. Records come from CSV files or a key/value table store. The geocoder fills in their coordinates with a three-stage fallback: the full address, then the location name, then city/state/zip. A routing service then computes the half-hour and one-hour drive-time polygons around each centre. Those polygons are stored by insert-or-update, or written to GeoJSON files. Finally the polygons are drawn on Folium maps and served by a small Flask API.

The network, the store, the files, the terminal and the map renderer are not modelled. Each one is an oracle: a function passed as a parameter that gives the reply the real service would give. Everything the code decides around those calls is modelled. That covers which queries are made, which rows are rewritten, which records are inserted or updated, which errors are raised with which messages, and what would be drawn.

There is one Dafny module per source file:

- `Errors`: the exception tree of `src/utils/error_utils.py`, plus the Python built-in exceptions the code catches. It also models the `handle_exception` decorator, `ExceptionContext` and `convert_exception`.
- `Retry`: the linear-backoff retry of `src/utils/retry_util.py`. The pauses are recorded, not slept.
- `Logging`: the structured-logging context of `src/utils/logging_utils.py`. The logging module is a class whose `context` field `LogContext` replaces and restores.
- `Config`: the `TABLES` and `MAP_SETTINGS` constants and `get_public_api_tables`.
- `Api`: the REST routes of `src/routes/api.py`, namely the allow-list, the page window and the gating checks.
- `App`: the Flask application's error handler and routes.
- `DataUtils`: `load_data` and `load_isochrones`, which turn stored rows into GeoJSON features.
- `GeoJson`: RFC 7946 validation by coordinate nesting depth, the feature utilities, the bounding box, and the two merges and the batch.
- `Geocode`: the address resolver, the in-place reconciliation of a table, and the CSV and database drivers.
- `Isochrone`: extracting the centres, the routing request, collecting results, the upsert into the store with Well-Known Text (OGC 06-103r4, clause 7), and local output.
- `Maps`: tile providers, colours, draw order and labels, markers, data checks, merging local isochrone files, and `validate_map_config`.
- `SetupEnv`: the decision logic of `setup_env.py`.

These helper modules carry no rows in the table below:

- `Wrappers`: the `Option` and `Result` types.
- `PyText`: the Python `str` operations the code uses.
- `Json`: JSON values and Python's operations on them.
- `Frames`: the pandas tables.

Loops of the source are methods with invariants, and each method is proved against a function that specifies it. The properties the source promises are lemmas about those functions: round trips, invariants, exact error cases and "nothing else changes".

## Model

| member | source | states |
|---|---|---|
| Errors.Parent | src/utils/error_utils.py:35-115 | every class but `Exception` has a declared base class |
| Errors.BasesFollowParents | src/utils/error_utils.py:35-115 | a class's bases are its declared parent followed by the parent's bases, in method-resolution order |
| Errors.Hierarchy | src/utils/error_utils.py:35-115 | the data, configuration, API, GeoJSON and resource families sit under `AppError` as declared |
| Errors.FamiliesDisjoint | src/utils/error_utils.py:35-115 | the data and API families are disjoint, and `ValueError`/`KeyError` are not application errors |
| Errors.BasesClosed | src/utils/error_utils.py:35-115 | a base of a base is a base |
| Errors.IsATransitive | src/utils/error_utils.py:35-115 | subclassing is transitive |
| Errors.IsAAntisymmetric | src/utils/error_utils.py:35-115 | subclassing is antisymmetric, so the class tree has no cycle |
| Errors.NoCycles | src/utils/error_utils.py:35-115 | no class is among its own bases |
| Errors.AppErrorFamily | src/utils/error_utils.py:35-115 | the application errors are exactly the subclasses of `AppError` |
| Errors.HandleException | src/utils/error_utils.py:122-163 | success passes unchanged, the call fails exactly when the wrapped call fails, and with application-error targets every failure is an application error |
| Errors.HandleExceptionKeepsAppErrors | src/utils/error_utils.py:140-145 | an application error is re-raised unchanged |
| Errors.HandleExceptionExactType | src/utils/error_utils.py:146-157 | an exception whose exact class is a key becomes the mapped class with its message verbatim; any other becomes `AppError("Unexpected error: <msg>")` |
| Errors.HandleExceptionSupertypeKeyIgnored | src/utils/error_utils.py:146-157 | a `ValueError` is not caught by an `{Exception: DataAccessError}` mapping |
| Errors.HandleExceptionIdempotent | src/utils/error_utils.py:122-163 | decorating twice equals decorating once when the mapping targets application errors |
| Errors.ExceptionContext | src/utils/error_utils.py:182-199 | no exception passes, an application error propagates, anything else becomes the context's class; with an application class every failure is an application error |
| Errors.ExceptionContextMessage | src/utils/error_utils.py:194-199 | a converted exception has the context's class and the message "Error in <op>: <msg>", ending with the original message |
| Errors.ExceptionContextNested | src/utils/error_utils.py:182-199 | an outer context leaves an exception converted by an inner application-class context alone |
| Errors.ExceptionContextThenHandle | src/utils/error_utils.py:140-145 | the decorator passes on whatever an application-class context raised |
| Errors.ConvertException | src/utils/error_utils.py:202-217 | the result has the requested class and carries the given message when it is non-empty, otherwise the original message |
| Retry.Retry | src/utils/retry_util.py:30-95 | with no attempts nothing is called and `None` returned; otherwise at most `retries` calls, the first success returned at once, after failure k a pause `delay * (k + 1)` except after the last, which raises `error_type("Operation <name> failed after <retries> attempts: <msg>")`; the handler sees each failure with its 0-based attempt |
| Retry.LinearPausesGrow | src/utils/retry_util.py:81-84 | the pauses grow linearly by `delay`, so `delay = 2` gives `[2, 4]` |
| Logging.LogModule.Clear | src/utils/logging_utils.py:106-109 | the context attribute is removed, so the current context reads as `{}` |
| Logging.LogModule.Reset | src/utils/logging_utils.py:169-170 | the context is reset to an empty dictionary |
| Logging.LogContext.constructor | src/utils/logging_utils.py:39-41 | the snapshot is the context at construction, and the merged context has both key sets with the new keys winning |
| Logging.LogContext.Enter | src/utils/logging_utils.py:43-45 | entering makes the merged context current |
| Logging.LogContext.Exit | src/utils/logging_utils.py:47-50 | exiting restores the snapshot exactly |
| Logging.Nested | src/utils/logging_utils.py:30-50 | inside nested contexts both key sets are visible with inner keys winning; after the inner exit the inner-only keys are gone; after the outer exit the original context is back |
| Logging.WithLogContext | src/utils/logging_utils.py:88-98 | the function sees the previous context merged with the keys, its result passes through, and the previous context is restored |
| Logging.Format | src/utils/logging_utils.py:60-71 | each context key is copied only where the record lacks it, existing attributes are kept, and `request_id` defaults to "-" |
| Logging.EnrichedIdempotent | src/utils/logging_utils.py:60-71 | formatting a record twice adds nothing the first pass did not |
| Config.TableOf | src/config/__init__.py:141-202 | a key is found exactly when some entry of `TABLES` carries it, and the entry found is that key's |
| Config.PublicApiTables | src/config/__init__.py:206-211 | a name is listed exactly when some entry is flagged `public_api_visible` and has that `table_name`; the list is no longer than the table list |
| Config.PublicApiTablesAppend | src/config/__init__.py:206-211 | the filter distributes over concatenation, so the result keeps the order of `TABLES` |
| Config.PublicApiTablesOne | src/config/__init__.py:206-211 | a single entry is kept exactly when its flag is present and true; an entry without the flag is excluded |
| Config.ShippedPublicTables | src/config/__init__.py:141-211 | with the shipped `TABLES` the public tables are `["city_centers", "locations", "isochrones", "health_check"]` |
| Config.TableOfShipped | src/config/__init__.py:141-202 | the shipped keys are exactly centers, locations, isochrones and health_check, each with its own entry |
| Config.ShippedFlags | src/config/__init__.py:141-202 | `needs_geocoding` and `generate_map` are true exactly for "centers" and "locations" |
| Config.ShippedColumns | src/config/__init__.py:141-202 | every column map has "id", and the isochrones map has exactly the nine columns the upsert writes |
| Api.ArgInt | src/routes/api.py:103-104 | a missing query argument gives the default |
| Api.ArgIntReads | src/routes/api.py:103-104 | a number written out in the query string is read back as itself |
| Api.WindowTiles | src/routes/api.py:110-116 | a page window holds exactly `page_size` rows, consecutive pages meet without overlap, and page 1 starts at row 0 |
| Api.DefaultWindow | src/routes/api.py:103-116 | without arguments rows 0 through 99 are asked for |
| Api.GetData | src/routes/api.py:80-126 | no client raises `ConfigError`; a table outside the allow-list raises `ResourceNotFoundError`; otherwise the store's rows over the page window are returned, a store failure being wrapped as `APIError("Error in Querying data from <table>: ...")`; every failure is an application error |
| Api.DataCount | src/routes/api.py:118-126 | the count is the number of rows returned, and no rows gives `{"data": [], "count": 0}` |
| Api.ShippedAllowList | src/app.py:88-90 | the allow-list holds table names: "city_centers" and the other three are served, the key "centers" is not found |
| Api.GetIsochrones | src/routes/api.py:134-162 | no client or an empty tables configuration raises `ConfigError`; otherwise the outcome is exactly that of `load_isochrones` |
| Api.IsochronesUnconfigured | src/app.py:88 | with the application's `TABLES` setting of `None` the route always reports a missing configuration |
| Api.GetMap | src/routes/api.py:170-195 | a key that is not a mappable table raises `ResourceNotFoundError`; otherwise the map is rendered with the locations exactly for "locations" |
| Api.ShippedMaps | src/routes/api.py:179-193 | with the shipped tables "isochrones" has no map, "centers" is rendered without locations and "locations" with them |
| App.HandleError | src/app.py:116-135 | an application error answers with its class name, its message and its family's status; anything else answers 500 with an opaque server error |
| App.HandleErrorStatus | src/app.py:116-135 | 404 exactly for the not-found family, 503 exactly for the API family, 500 exactly for errors outside the application tree, 400 for every other application error |
| App.StatusOfClasses | src/app.py:118-126 | a subclass is reported like its family: `APIConnectionError` 503, `ResourceError`, `GeoJSONError`, `DataValidationError` and `ConfigError` 400 |
| App.ApiStatuses | src/app.py:121-122 | the API error family answers 503 |
| App.ResourceStatuses | src/app.py:119-124 | `ResourceNotFoundError` answers 404 while its base `ResourceError` answers 400, as do GeoJSON and validation errors |
| App.OtherStatuses | src/app.py:125-126 | the configuration errors and a bare `AppError` answer 400 |
| App.DecoratedNever500 | src/app.py:116-135 | a route behind `handle_exception` with application targets never answers 500 |
| App.ApiRoutesNever500 | src/routes/api.py:80-162 | the data and isochrone routes never answer 500, whatever the store or decoder do |
| App.DynamicMap | src/app.py:160-197 | a key that is not a mappable table is answered directly with 404 and "ResourceNotFound"; otherwise the map is rendered with locations and all tiles exactly for "locations" |
| App.MapRoutesAgree | src/app.py:166-180 | the two map routes agree on the 404 status but name the error differently ("ResourceNotFound" and "ResourceNotFoundError") |
| App.DynamicMapFlags | src/app.py:183-193 | only the locations map shows the locations and every tile layer; "centers" is rendered without them and "health_check" is a 404 |
| App.Float | src/app.py:229 | `float()` fails with `ValueError` exactly when the text does not parse |
| App.Int | src/app.py:230 | `int()` fails only with `ValueError` |
| App.IntReads | src/app.py:230 | a number written out is read back by `int()` |
| App.GenerateIsochrone | src/app.py:201-251 | missing or empty lat or lng answers 400 before the API key is read; a missing key raises `ConfigError`; every escaping failure is an application error |
| App.GenerateIsochroneSucceeds | src/app.py:224-246 | a success answers 200 with the service's JSON reply to one location `[lng, lat]` and range `[int(time)]`, time defaulting to "1800", a reply that passed GeoJSON validation |
| App.MissingCoordinatesFirst | src/app.py:214-216 | with a coordinate missing the answer is 400 whatever the API key |
| App.MissingKey | src/app.py:219-222 | a missing API key answers 400 with `ConfigError` "API key not found" |
| App.BadTimeIsServiceError | src/app.py:225-232 | a time that is not an integer is answered 503 as an `APIError`, not 400 |
| App.BadTimeRaises | src/app.py:225-232 | the failed `int()` surfaces as `APIError("Error in OpenRouteService API call: ...")` |
| App.DefaultTime | src/app.py:209-211 | the default time "1800" reads as 1800 seconds |
| DataUtils.LoadData | src/utils/data_utils.py:13-71 | every failure is an application error, and without a `dtype` the store's rows come back unchanged |
| DataUtils.LoadDataStoreFailure | src/utils/data_utils.py:13-56 | a store failure keeps its message; only a bare `Exception` becomes `DataAccessError`, anything else `AppError("Unexpected error: ...")` |
| DataUtils.LoadDataCastFailure | src/utils/data_utils.py:63-69 | a failed cast raises `DataProcessingError("Failed to apply data type conversions: ...")` |
| DataUtils.IsoConfig | src/utils/data_utils.py:100-105 | a configuration without "isochrones" raises `DataValidationError` |
| DataUtils.ConvertRows | src/utils/data_utils.py:128-166 | on success the features plus the skipped rows number the rows |
| DataUtils.LoadIsochrones | src/utils/data_utils.py:74-179 | the row loop computes exactly the load's outcome as a function of the configuration, the store and the decoder |
| DataUtils.LoadIsochronesRaisesAppErrors | src/utils/data_utils.py:74-80 | whatever the load raises is an application error |
| DataUtils.LoadIsochronesValidation | src/utils/data_utils.py:100-123 | a missing "isochrones" configuration or an empty response raises `DataValidationError` with the source's messages |
| DataUtils.LoadIsochronesCounts | src/utils/data_utils.py:168-179 | the result holds rows minus skipped features; all rows skipped raises `GeoJSONError`; otherwise the FeatureCollection of the features |
| DataUtils.ConvertRowsStep | src/utils/data_utils.py:131-166 | each row extends the prefix's outcome: a failure aborts, an undecodable geometry counts one skip, a feature is appended |
| DataUtils.ConvertRowsFailurePropagates | src/utils/data_utils.py:164-166 | once a row fails the whole load fails with that error |
| DataUtils.ConvertRowsFeatures | src/utils/data_utils.py:131-163 | on success there is one feature per decodable row, in row order, built from its geometry and properties |
| DataUtils.MetadataWins | src/utils/data_utils.py:151-155 | metadata keys override name and value; otherwise the row's name and value are kept |
| DataUtils.BadMetadataAborts | src/utils/data_utils.py:150-166 | a row whose metadata is `None` aborts with `DataProcessingError` naming the row |
| DataUtils.NotAMappingNone | src/utils/data_utils.py:154 | spreading `None` fails with "'NoneType' object is not a mapping" |
| GeoJson.CheckCoords | src/utils/geojson_utils.py:118-153 | the coordinate check fails only with `DataValidationError` |
| GeoJson.CheckCoordsSpec | src/utils/geojson_utils.py:118-153 | the check passes exactly when the value has the nesting of its depth: a list of at least two entries at depth 0, a list of depth-(d-1) values at depths 1 to 3, the empty list passing |
| GeoJson.CheckEach | src/utils/geojson_utils.py:143-152 | checking the entries fails only with `DataValidationError` |
| GeoJson.CheckEachSpec | src/utils/geojson_utils.py:143-152 | the entries pass exactly when every entry has the nesting of the next depth |
| GeoJson.CheckGeometry | src/utils/geojson_utils.py:156-175 | the geometry check raises only validation errors or the `KeyError`/`TypeError` of a missing key or non-dict |
| GeoJson.CheckGeometrySpec | src/utils/geojson_utils.py:156-175 | a geometry passes exactly when it has "coordinates" and a "type", and the coordinates of a known type have that type's depth; an unknown type is not checked |
| GeoJson.CheckFeature | src/utils/geojson_utils.py:178-201 | the Feature check raises only validation errors or a missing-key/non-dict error |
| GeoJson.CheckFeatureSpec | src/utils/geojson_utils.py:178-201 | a Feature passes exactly when it has "geometry", which is null or an object passing the geometry check, and its properties, if present and non-null, are an object |
| GeoJson.CheckFeatures | src/utils/geojson_utils.py:217-219 | checking the features raises only validation or lookup errors |
| GeoJson.CheckFeaturesSpec | src/utils/geojson_utils.py:217-219 | the features pass exactly when every one is a valid Feature |
| GeoJson.CheckGeometries | src/utils/geojson_utils.py:239-241 | checking the geometries raises only validation or lookup errors |
| GeoJson.CheckGeometriesSpec | src/utils/geojson_utils.py:239-241 | the geometries pass exactly when every one is a valid geometry |
| GeoJson.CheckFeatureCollection | src/utils/geojson_utils.py:206-221 | a FeatureCollection without a "features" list is rejected with a validation error |
| GeoJson.CheckGeometryCollection | src/utils/geojson_utils.py:224-243 | a GeometryCollection without a "geometries" list is rejected with a validation error |
| GeoJson.CheckTop | src/utils/geojson_utils.py:86-115 | a success returns the input itself, an object whose "type" is one of the nine RFC 7946 names |
| GeoJson.CheckTopSpec | src/utils/geojson_utils.py:86-115 | the checks pass exactly when the object satisfies the declarative definition of valid GeoJSON, and return it unchanged |
| GeoJson.ValidateGeoJson | src/utils/geojson_utils.py:54-115 | failures are `DataValidationError` or, for an unexpected lookup error, `AppError`; a success is an object with a string "type" |
| GeoJson.ValidateSpec | src/utils/geojson_utils.py:54-115 | a non-string input is accepted exactly when it is valid GeoJSON, and is returned unchanged |
| GeoJson.ValidateStringSpec | src/utils/geojson_utils.py:78-84 | a string is accepted exactly when it parses to valid GeoJSON, which is returned; a parse failure is "Invalid JSON: ..." |
| GeoJson.ValidateIdempotent | src/utils/geojson_utils.py:54-115 | validating a validated object again accepts it and returns it unchanged |
| GeoJson.ValidateRejects | src/utils/geojson_utils.py:86-99 | a non-object, a missing "type" and an unknown type name are rejected with the source's messages |
| GeoJson.NestedMissingTypeIsUnexpected | src/utils/geojson_utils.py:156-175 | a nested geometry without "type" raises `KeyError`, which the decorator reports as `AppError("Unexpected error: 'type'")` |
| GeoJson.CreatePolygon | src/utils/geojson_utils.py:277-309 | empty or non-list coordinates are rejected with "Polygon coordinates must be a non-empty array" |
| GeoJson.CreatePointValidates | src/utils/geojson_utils.py:247-274 | a created point passes validation exactly when its properties are empty or an object |
| GeoJson.CreatePolygonValidates | src/utils/geojson_utils.py:277-309 | a created polygon passes validation exactly when its coordinates are lists of positions and its properties are empty or an object |
| GeoJson.ExtractFeatures | src/utils/geojson_utils.py:312-342 | every failure is an application error |
| GeoJson.ExtractFeaturesNeedsLength | src/utils/geojson_utils.py:332-335 | a FeatureCollection's "features" is returned exactly when it has a length (list, string or object); null, a number or a boolean gives `AppError("Unexpected error: object of type '<type>' has no len()")` |
| GeoJson.ExtractFeaturesOfValid | src/utils/geojson_utils.py:312-342 | valid input yields a list of valid features: a collection's own features, a Feature as a singleton, a geometry wrapped with empty properties |
| GeoJson.WrappedGeometryCollectionRejected | src/utils/geojson_utils.py:337-342 | a GeometryCollection is wrapped as a Feature's geometry, and that Feature fails validation |
| GeoJson.FilterMatching | src/utils/geojson_utils.py:368-376 | the search keeps at most the features it was given |
| GeoJson.FilterMatchingSpec | src/utils/geojson_utils.py:345-376 | over valid features the search cannot fail and returns `WithProperty`: the features whose non-empty properties map the key to the value, in order and with repeats, and no others |
| GeoJson.MatchesOk | src/utils/geojson_utils.py:372 | on a valid feature the test cannot fail and holds exactly when its non-empty properties map the key to the value |
| GeoJson.FilterMatchingFilters | src/utils/geojson_utils.py:369-373 | over valid features the comprehension is the order-keeping filter `WithProperty` |
| GeoJson.FindFeaturesByProperty | src/utils/geojson_utils.py:345-376 | every failure leaves the decorator as an application error |
| GeoJson.FindFeaturesByPropertySpec | src/utils/geojson_utils.py:345-376 | on valid input other than a GeometryCollection the search succeeds with exactly the extracted features whose properties map the key to the value, in order |
| GeoJson.CreatePoint | src/utils/geojson_utils.py:247-274 | a Feature with a Point geometry at [lon, lat] and the given properties, or {} when they are empty |
| GeoJson.WithPropertyMembers | src/utils/geojson_utils.py:369-373 | the filter keeps a feature exactly when it has the property |
| GeoJson.PositionsAt | src/utils/geojson_utils.py:408-430 | a position at depth 0 yields exactly one pair |
| GeoJson.MinStep | src/utils/geojson_utils.py:401-406 | the running minimum stays the least value seen, starting from +inf |
| GeoJson.MaxStep | src/utils/geojson_utils.py:401-406 | the running maximum stays the greatest value seen, starting from -inf |
| GeoJson.GetBBox | src/utils/geojson_utils.py:379-443 | the box is `[min lon, min lat, max lon, max lat]` over every position of every non-null geometry, infinite when there are none; it fails exactly when the traversal fails, with an application error |
| GeoJson.MergeFeatureCollections | src/utils/geojson_utils.py:446-482 | every failure is an application error |
| GeoJson.MergeFeatureCollectionsSpec | src/utils/geojson_utils.py:446-482 | two FeatureCollections give `fc1.features ++ fc2.features` without validation; anything else is rejected |
| GeoJson.ValidateAtSpec | src/utils/geojson_utils.py:511-515 | the per-object context never rewrites what the decorated validator raises, and what passes is valid |
| GeoJson.MergedFeaturesStep | src/utils/geojson_utils.py:508-534 | the object at index i is validated, then its contribution is followed by the rest; a failure aborts |
| GeoJson.MergeGeoJson | src/utils/geojson_utils.py:485-543 | the result is the FeatureCollection of every object's contribution in input order, or the first validation failure |
| GeoJson.MergedFeaturesValid | src/utils/geojson_utils.py:485-543 | merged features are valid Features when no input is a GeometryCollection |
| GeoJson.SurvivorsValid | src/utils/geojson_utils.py:567-583 | every file kept by a batch holds valid GeoJSON |
| GeoJson.MergeOfValidSucceeds | src/utils/geojson_utils.py:585-591 | merging validated objects cannot fail |
| GeoJson.SurvivorsStep | src/utils/geojson_utils.py:567-583 | each file adds its validated object, if any, at the end |
| GeoJson.ReadOne | src/utils/geojson_utils.py:568-583 | a file is kept exactly when it can be read and validated |
| GeoJson.ReadAndValidate | src/utils/geojson_utils.py:567-583 | the batch loop keeps, in order, the files that can be read and validated |
| GeoJson.ProcessGeoJsonBatch | src/utils/geojson_utils.py:546-596 | no survivors gives an empty FeatureCollection; otherwise the merge succeeds and "features" returns only its list, any other format the collection |
| GeoJson.Survivors | src/utils/geojson_utils.py:563-584 | a batch keeps at most one object per file |
| Geocode.NonEmpty | src/geocode.py:162-164 | the filtered address parts are the non-empty ones, never more than given |
| Geocode.CszFailureMessage | src/geocode.py:233-236 | a service failure in the city/state/zip stage that is not an application error is reported in `ExceptionContext`'s words |
| Geocode.Resolve | src/geocode.py:160-267 | the stage flow returns both coordinates or neither, and a located answer carries no error or the city-centre advisory |
| Geocode.Geocode | src/geocode.py:133-267 | `geocode` returns both coordinates or neither; a located answer's error is `""` or "Geocoded to city center - needs manual review" |
| Geocode.ResolveFirstHit | src/geocode.py:160-267 | the queries sent are the stages up to the first one located (all when none is), no earlier one located; the coordinates are the last query's hit, and exist exactly when some stage hits |
| Geocode.GeocodeFirstHit | src/geocode.py:133-267 | `geocode` sends at most three queries, a prefix of address, name, city/state/zip, and locates exactly when some stage would |
| Geocode.BlankAddressSkipsAddressStage | src/geocode.py:156-161 | a `None`, `NaN` or blank address sends no address query |
| Geocode.AddressHit | src/geocode.py:160-181 | a located address returns its coordinates with `""` and sends only that query |
| Geocode.NameHit | src/geocode.py:189-214 | after the address stage misses, a located name returns its coordinates with `""` and the city/state/zip stage is not reached |
| Geocode.ResolveLastStage | src/geocode.py:224-264 | once the first two stages miss, the city/state/zip answer decides: a hit (with the advisory when the address was real), "Location not found", or the wrapped failure message |
| Geocode.CszDecides | src/geocode.py:224-264 | the same for `geocode`: the last query is the city/state/zip one, the advisory appears exactly when the address was real, a miss is "Location not found", a failure is `ExceptionContext`'s message |
| Geocode.NothingLeft | src/geocode.py:266-267 | with nothing located and no city, state or zip the answer is no coordinates and "Location not found" |
| Geocode.AddIfMissing | src/geocode.py:294-297 | a missing column is added and an existing one kept |
| Geocode.Prepared | src/geocode.py:293-300 | preparation keeps the row count and rectangularity and adds the coordinate, error and `_needs_update` columns |
| Geocode.Reconciled | src/geocode.py:319-355 | each row is updated when selected and kept otherwise, one result per row |
| Geocode.UnconfiguredAddressUnused | src/geocode.py:320-327 | with no "address" entry in the columns the address cell is read from the column `""`, so a row without that column sends only the name and city/state/zip queries |
| Geocode.PreparedHasSelection | src/geocode.py:293-307 | once "error" exists, every prepared row has the cells the selection reads |
| Geocode.NoAttempts | src/geocode.py:302-311 | no row is selected exactly when every row has both coordinates and a null or empty error |
| Geocode.CountsAddUp | src/geocode.py:346-355 | every selected row is counted once, as a success or a failure |
| Geocode.NothingSelected | src/geocode.py:309-311 | with nothing selected the prepared rows are returned unchanged |
| Geocode.AddColumns | src/geocode.py:293-300 | the frame becomes the prepared table |
| Geocode.GeocodeRow | src/geocode.py:319-355 | row i is replaced by its updated version, nothing else changes, and the result says whether both coordinates came back |
| Geocode.ProcessRow | src/geocode.py:319-355 | row i is processed (updated only when selected) and the flags report selection and location |
| Geocode.CountsStep | src/geocode.py:346-355 | one more row adds its success or failure to the running counts |
| Geocode.GeocodeDataset | src/geocode.py:278-358 | the rows become the reconciled prepared rows with counts `(successes, failures)`, `(0, 0)` when nothing is selected; a missing key fails with `AppError("Unexpected error: '<key>'")`, rows left as prepared |
| Geocode.DatasetKeyErrorUnexpected | src/geocode.py:270-276 | a `KeyError` for a missing column is not in the decorator's mapping, so it surfaces as `AppError("Unexpected error: '<key>'")` |
| Geocode.SelectAndReconcile | src/geocode.py:302-358 | on a prepared frame: the selection, then the row loop, with the same outcomes as `geocode_dataset` |
| Geocode.VisitRow | src/geocode.py:319-355 | one loop turn processes row i and extends the counts |
| Geocode.ReconcileRows | src/geocode.py:315-358 | the loop leaves every row processed and returns the counts, or fails with the first missing address role |
| Geocode.PreparedRows | src/geocode.py:293-300 | preparation keeps every cell except `_needs_update`, which is `False`, and fills added columns with `None` |
| Geocode.UpdatedRowSpec | src/geocode.py:340-351 | an updated row holds the answer's coordinates, the flag `True`, the error cleared to `None` exactly when located with no error, and every other cell as before |
| Geocode.WithResolutionSpec | src/geocode.py:340-351 | the same for any answer that has both coordinates or neither |
| Geocode.FlagMarksSelected | src/geocode.py:299-344 | after reconciliation `_needs_update` is `True` exactly in the selected rows |
| Geocode.Dropped | src/geocode.py:411-412 | dropping a column removes it from the columns and every row and keeps the rest |
| Geocode.LoadCsv | src/geocode.py:361-390 | loading succeeds exactly when the file exists and reads; a missing file is "Unexpected error: <path> not found." as `AppError`; every failure is an application error |
| Geocode.NoMissingKeySelectable | src/geocode.py:302-307 | with no missing key the prepared rows can be selected |
| Geocode.ProcessCsvSource | src/geocode.py:393-417 | a load failure is returned as is; a loaded table fails exactly when a configured column is missing, with the dataset's `AppError` for that key; a success writes the reconciled table without `_needs_update` to the output exactly when some row was selected |
| Geocode.CsvJobsSpec | src/geocode.py:432-457 | each CSV job belongs to a table that needs geocoding, writes its geocoded file and reads that file when it exists, the original otherwise |
| Geocode.SkippedTable | src/geocode.py:435 | a table without `needs_geocoding` adds no job |
| Geocode.RunCsvJob | src/geocode.py:453-459 | a table's job writes only the geocoded output of its loaded, selectable input; a load failure or a missing configured column is skipped with no write; a loaded table with every configured column is written exactly when some row needs geocoding |
| Geocode.ProcessCsvMode | src/geocode.py:420-461 | the jobs are those of the configuration, and every write goes to one of their outputs |
| Geocode.Requests | src/geocode.py:503-513 | at most one update per row |
| Geocode.Applied | src/geocode.py:506-519 | the applied count never exceeds the updates sent |
| Geocode.WriteBack | src/geocode.py:500-522 | the updates are the flagged rows' coordinates and error; the count is the updates the store applied; it fails with `KeyError` for the configured id column (or "id") exactly when some row lacks its id |
| Geocode.ProcessDbSource | src/geocode.py:464-523 | the method computes `process_db_source`'s decorated outcome, `DbSourceOutcome` |
| Geocode.SyncTable | src/geocode.py:482-522 | the undecorated body on a loaded table computes `SyncOutcome` |
| Geocode.DbSourceOutcome | src/geocode.py:464-523 | through the decorator every failure is an application error |
| Geocode.DbSourceEarlyFailures | src/geocode.py:464-492 | a missing "table_name" or "columns" fails with `DataAccessError` naming the key; a load failure is mapped by the decorator |
| Geocode.SyncOutcomeCases | src/geocode.py:488-522 | a missing column fails with the dataset's error; nothing is sent when nothing was selected; otherwise the table fails with `KeyError` exactly when a flagged row lacks its id, and succeeds with one update per flagged reconciled row and the count the store applied |
| Geocode.DbSourceDecorated | src/geocode.py:464-470 | the decorator keeps a success and an application error and turns the id `KeyError` into `DataAccessError` with the same message |
| Geocode.RequestsCount | src/geocode.py:500-515 | rows flagged exactly where rows are selected give one update per selected row |
| Geocode.OneUpdatePerProcessedRow | src/geocode.py:496-515 | the database receives one update per processed row |
| Geocode.UpdatedRowSpecFlag | src/geocode.py:340-344 | an updated row keeps every key and carries `_needs_update` |
| Geocode.ToGeocode | src/geocode.py:545-552 | the tables processed are configured tables that need geocoding |
| Geocode.ProcessDbMode | src/geocode.py:526-555 | no client raises "Failed to initialize Supabase client"; otherwise the loop computes `DbModeOutcome` over the configured tables |
| Geocode.DbModeOutcome | src/geocode.py:543-553 | every failure is an application error and a success has one outcome per table that needs geocoding |
| Geocode.DbModeFailureSticky | src/geocode.py:543-553 | once a table has failed, later tables do not change the outcome |
| Geocode.DbModeSucceeds | src/geocode.py:543-553 | when every table that needs geocoding succeeds, the run succeeds with each table's outcome in order |
| Geocode.DbModeAborts | src/geocode.py:543-553 | the first table that needs geocoding and fails ends the run with that table's error |
| Isochrone.CenterCoordsSpec | src/isochrone.py:152-170 | the coordinates are one `[longitude, latitude]` per row in row order exactly when every row has both; otherwise the error is the first failing row's |
| Isochrone.CenterCoordsPrefixFailure | src/isochrone.py:154-165 | once a row fails, later rows do not change the outcome |
| Isochrone.LoadCenterData | src/isochrone.py:97-173 | the loop computes `load_center_data` through its decorator; an empty table raises "Center data is empty" and every failure is an application error |
| Isochrone.LoadedCoordinates | src/isochrone.py:147-173 | a successful load has a non-empty table and, per row in order, both coordinates present and returned as `[longitude, latitude]` |
| Isochrone.MissingCoordinateFails | src/isochrone.py:158-165 | a centre missing latitude or longitude makes the load fail with `DataValidationError` |
| Isochrone.GenerateIsochrone | src/isochrone.py:176-217 | success is `(name, answer)` exactly when the service answers; a foreign failure becomes `APIConnectionError` naming the call; the 1.5 s pause runs once either way |
| Isochrone.RequestShape | src/isochrone.py:199-206 | the request has the single `[lon, lat]` location, "driving-car", range `[3600, 1800]`, "time" and smoothing 25 |
| Isochrone.LookupIndex | src/isochrone.py:608-628 | in a dict with distinct keys, lookup finds a key's value exactly when the key is present |
| Isochrone.Put | src/isochrone.py:628 | `d[k] = v` keeps keys distinct, appends a new key, keeps an existing key's place, maps k to v and leaves other keys alone |
| Isochrone.IndexOf | src/isochrone.py:628 | the index found holds the key, or is past the end when the key is absent |
| Isochrone.Collected | src/isochrone.py:608-630 | the collected dict has distinct keys |
| Isochrone.CollectedLastWins | src/isochrone.py:624-630 | a centre is kept exactly when some call for it returned a truthy answer without raising, and with its last such answer; failures do not abort |
| Isochrone.Outcomes | src/isochrone.py:612-626 | one outcome per completed call |
| Isochrone.CollectedStep | src/isochrone.py:624-630 | each completed call adds its truthy answer and otherwise changes nothing |
| Isochrone.Collect | src/isochrone.py:607-630 | the loop builds the collected dict of all outcomes in completion order and pauses 1.5 s per call |
| Isochrone.CollectOne | src/isochrone.py:624-630 | one loop turn folds the next outcome and its pause |
| Isochrone.PositionTexts | src/isochrone.py:340 | one text per position |
| Isochrone.PositionTextsSpec | src/isochrone.py:340 | positions with two entries each give their `"x y"` texts in order |
| Isochrone.PositionTextOf | src/isochrone.py:340 | a position with two entries gives `"x y"` |
| Isochrone.RingTextsSnoc | src/isochrone.py:340 | one more position adds its text at the end |
| Isochrone.RingTexts | src/isochrone.py:340 | one text per position |
| Isochrone.GeometryError | src/isochrone.py:343-348 | both `except` clauses raise `GeoJSONError` |
| Isochrone.PolygonWkt | src/isochrone.py:323-348 | the geometry block fails only with `GeoJSONError` |
| Isochrone.PolygonWktFormat | src/isochrone.py:333-342 | a polygon whose outer ring has at least four positions becomes `POLYGON((x1 y1, x2 y2, ...))` over that ring in order |
| Isochrone.PolygonWktRejects | src/isochrone.py:325-348 | a non-polygon and a ring shorter than four raise `GeoJSONError` prefixed "Unexpected geometry error: "; missing coordinates give "Invalid GeoJSON geometry structure: 'coordinates'" |
| Isochrone.MatchingSpec | src/isochrone.py:354-362 | the existing-row query returns exactly the ids of the records with that (name, group_index, value) |
| Isochrone.UpdateRecords | src/isochrone.py:391-396 | an update by id replaces exactly the records with that id |
| Isochrone.Spread | src/isochrone.py:351 | `{**metadata}` copies a dict and fails on anything else |
| Isochrone.FirstMatch | src/isochrone.py:256-257 | the index found is the first centre row whose city equals the name, or none matches |
| Isochrone.StateZip | src/isochrone.py:252-311 | state and zip come from the first matching row when present; an empty store answer raises "Center information missing ..."; a success has both |
| Isochrone.Upsert | src/isochrone.py:220-420 | every failure is an application error |
| Isochrone.RunDry | src/isochrone.py:376-380 | a dry run never writes |
| Isochrone.UpsertDryRun | src/isochrone.py:376-380 | a dry run leaves the store as it was |
| Isochrone.UpsertMissingStateZip | src/isochrone.py:270-311 | without state or zip nothing is written and the call fails with the state/zip error |
| Isochrone.StepWrites | src/isochrone.py:382-409 | a written feature updates the first matching record, keeping its id, or inserts under the next id |
| Isochrone.FeatureRowFields | src/isochrone.py:313-374 | the stored row carries the centre's name, state, zip and metadata and the feature's group index and value |
| Isochrone.UpdateKeepsKeys | src/isochrone.py:387-396 | an update of records that already have the row's key keeps every id and key |
| Isochrone.WrittenKeepsInvariant | src/isochrone.py:382-409 | a write keeps ids distinct and (name, group_index, value) keys unique |
| Isochrone.UpdateKeepsInvariant | src/isochrone.py:382-396 | updating the first match keeps both invariants |
| Isochrone.InsertKeepsInvariant | src/isochrone.py:397-409 | inserting an unmatched key keeps both invariants |
| Isochrone.StepKeepsInvariant | src/isochrone.py:313-420 | every feature step keeps both invariants |
| Isochrone.RunKeepsInvariant | src/isochrone.py:313-420 | every prefix of features keeps both invariants |
| Isochrone.UpsertKeepsKeysUnique | src/isochrone.py:220-420 | upserting never creates two records with the same key |
| Isochrone.RunStep | src/isochrone.py:313-420 | while nothing raised, the next feature takes its step |
| Isochrone.RunStopsAtFailure | src/isochrone.py:313-348 | processing stops at the first failing feature; earlier features stay written |
| Isochrone.IsochroneStore.constructor | src/isochrone.py:356 | the store starts in the given state |
| Isochrone.IsochroneStore.Update | src/isochrone.py:391-396 | the records with the id take the new row; the next id is unchanged |
| Isochrone.IsochroneStore.Insert | src/isochrone.py:405-409 | the row is appended under the next id, which advances by one |
| Isochrone.WriteFeature | src/isochrone.py:313-420 | one feature against the store does what the feature step says |
| Isochrone.WriteRow | src/isochrone.py:382-420 | a raised write is wrapped as `DataProcessingError` naming update or insert; an error reply raises "Failed to upsert isochrone: ..."; otherwise the row is written |
| Isochrone.UpsertIsochrones | src/isochrone.py:220-420 | the loop leaves the store and result that `Upsert` gives |
| Isochrone.ChainStops | src/isochrone.py:661-662 | once a centre fails, later centres are not upserted |
| Isochrone.UpsertAllRaisesAppErrors | src/isochrone.py:658-662 | the database batch raises only application errors |
| Isochrone.UpsertAllStep | src/isochrone.py:661-662 | while nothing failed, the next centre is upserted |
| Isochrone.UpsertAllStops | src/isochrone.py:661-662 | the first failure ends the batch |
| Isochrone.UpsertAllDryRun | src/isochrone.py:658-662 | a dry-run batch leaves the store as it was |
| Isochrone.UpsertAllKeepsKeysUnique | src/isochrone.py:658-662 | the batch keeps ids distinct and keys unique |
| Isochrone.SaveToStore | src/isochrone.py:658-662 | the loop leaves the store and result the batch specifies |
| Isochrone.Sanitize | src/isochrone.py:637 | the filtered name is no longer and holds only ASCII letters and digits |
| Isochrone.SanitizeConcat | src/isochrone.py:637 | the filter distributes over concatenation |
| Isochrone.SanitizeKeepsAlnum | src/isochrone.py:637 | a name of letters and digits is kept as it is |
| Isochrone.SanitizeIdempotent | src/isochrone.py:637 | filtering twice equals filtering once |
| Isochrone.SanitizeOne | src/isochrone.py:637 | a character is dropped exactly when it is not an ASCII letter or digit |
| Isochrone.FileName | src/isochrone.py:637-638 | a string name gives `<filtered>_isochrones.geojson`; a non-string name fails |
| Isochrone.Save | src/isochrone.py:470-495 | saving succeeds exactly when the write does; a failure is `GeoJSONError` or `DataProcessingError` |
| Isochrone.SaveEach | src/isochrone.py:636-639 | at most one file per centre, all of them when nothing failed |
| Isochrone.SaveEachFiles | src/isochrone.py:636-639 | each file holds its centre's result unchanged, under the filtered name, in dict order |
| Isochrone.SetName | src/isochrone.py:651 | naming sets `properties.name` and keeps every other field and property |
| Isochrone.NameAll | src/isochrone.py:649-652 | one named feature per feature |
| Isochrone.NameAllSpec | src/isochrone.py:649-652 | naming all succeeds exactly when each feature can be named, in order |
| Isochrone.Parts | src/isochrone.py:648-652 | one part per centre |
| Isochrone.ConcatAppend | src/isochrone.py:646-652 | concatenating two runs of parts concatenates their features |
| Isochrone.CombinedAppend | src/isochrone.py:646-652 | the combined features of two batches are the first's followed by the second's |
| Isochrone.PartsAppend | src/isochrone.py:648-652 | parts distribute over appending centres |
| Isochrone.CombinedSingle | src/isochrone.py:648-652 | one centre contributes its own features, named after it |
| Isochrone.LocalOutput | src/isochrone.py:633-656 | the local branch raises only application errors |
| Isochrone.LocalOutputComplete | src/isochrone.py:633-656 | on success every centre has its file and the last file is the combined collection of all their named features |
| Isochrone.SaveIndividual | src/isochrone.py:636-639 | the loop writes the files `SaveEach` specifies |
| Isochrone.SaveEachFailed | src/isochrone.py:636-639 | an earlier failure is the whole result |
| Isochrone.SaveEachStops | src/isochrone.py:636-639 | once a file fails, later centres are not written |
| Isochrone.Combine | src/isochrone.py:646-652 | the nested loop builds the combined features |
| Isochrone.NameAllStops | src/isochrone.py:649-652 | naming stops at the first failure |
| Isochrone.ConcatStops | src/isochrone.py:648-652 | concatenation stops at the first failure |
| Isochrone.SaveLocal | src/isochrone.py:633-656 | the branch writes the files and returns the outcome `LocalOutput` specifies |
| Maps.Lookup | src/maps.py:302-304 | `providers.get(name)` finds an entry exactly when one is named so, and returns that entry |
| Maps.ActiveName | src/maps.py:301 | the active provider name is the argument when truthy, else the configured default, else "OpenStreetMap" |
| Maps.ActiveProvider | src/maps.py:296-304 | the active provider is the named entry when there is one, else the OpenStreetMap fallback |
| Maps.BaseMap | src/maps.py:310-336 | zoom levels default to 10, 5 and 12; a provider with tiles gets no default tiles and one tile layer with its URL, attribution (default "") and name; otherwise the map's tiles are the provider's name |
| Maps.ProviderLayer | src/maps.py:357-370 | a switchable layer carries the provider's key as its name |
| Maps.OtherLayersKept | src/maps.py:347-370 | the provider loop adds exactly the configured providers that are neither active nor preferred |
| Maps.PreferredLayer | src/maps.py:373-390 | the preferred layer is added once, named after the preferred provider, exactly when it is configured and not the active one |
| Maps.AddTileLayers | src/maps.py:339-390 | the loop adds the other providers in order, then the preferred one |
| Maps.ExtraLayersOrder | src/maps.py:339-390 | when a provider is given or a default is configured: no added layer is the active provider; the preferred provider comes last and only there, exactly when configured and not active; every other provider is added |
| Maps.LookupNames | src/maps.py:302-304 | a lookup succeeds exactly when the name is a configured key |
| Maps.ShippedExtraLayers | src/maps.py:339-390 | with the shipped settings and no argument, the extra layers are Satellite, Dark, Topographic, then CartoDB |
| Maps.SatelliteBase | src/maps.py:310-326 | the shipped Satellite provider gets no default tiles and one layer "Satellite" attributed to "Esri" |
| Maps.UnknownProviderFallsBack | src/maps.py:302-304 | an unknown provider name falls back to the OpenStreetMap entry |
| Maps.Properties | src/maps.py:195 | a feature's properties are read only when they are an object |
| Maps.FeatureNames | src/maps.py:194-197 | the name set holds every feature's name ("Unknown" when absent) and nothing else |
| Maps.AssignColors | src/maps.py:192-199 | every name gets `palette[idx % len(palette)]` by its place in the set's iteration order, and the result is `ColourMap(order, palette)`; an empty palette with a name fails on the modulo |
| Maps.ColourMapSpec | src/maps.py:197-199 | over distinct names the colour map has exactly those names, each with the palette entry of its position modulo the palette's length |
| Maps.Colours | src/maps.py:192-199 | the colours `generate_maps` assigns: a name-set failure passes through, a missing "colors" setting is a `KeyError`, and a success is the colour map of the iteration order over the configured palette |
| Maps.ColorsDistinct | src/maps.py:198-199 | with no more names than palette entries, and entries of different colours, names get different colours |
| Maps.Colour | src/config/__init__.py:102-131 | a three-digit `#RGB` shorthand denotes `#RRGGBB` |
| Maps.ShippedPaletteRepeats | src/config/__init__.py:102-131 | the shipped palette has 25 entries, and Orange/Amber, Lime/Dark Lime and Plum/Slate denote the same colour |
| Maps.ShippedColoursClash | src/maps.py:198-199 | with the shipped palette the 3rd and 15th names are drawn in the same colour |
| Maps.CorrectedPaletteCanonical | src/config/__init__.py:102-131 | every corrected entry is written as its own colour |
| Maps.CorrectedPaletteUnique | src/config/__init__.py:102-131 | the corrected entries are 25 different strings |
| Maps.CorrectedPaletteDistinct | src/config/__init__.py:102-131 | the 25 corrected entries denote 25 different colours |
| Maps.CorrectedColoursDistinct | src/maps.py:192-199 | with the corrected palette, up to 25 names are drawn in different colours |
| Maps.Keys | src/maps.py:427-431 | a value lookup failure is returned as is; otherwise two or more values sort exactly when every two compare with `<` (numbers and booleans together, strings together, lists together), else `TypeError`; on success every feature is paired with its key, in order |
| Maps.FirstClash | src/maps.py:427-431 | the position found holds a value that cannot be compared with the first one; no position means every later value can be |
| Maps.FirstClashOrderable | src/maps.py:427-431 | no clash with the first value means every two values compare, so the sort raises nothing |
| Maps.Pair | src/maps.py:427-431 | each feature is paired with its key, in order: a number is its own key and any other value gets 0, which matches Python's order in every drawing that succeeds, since those hold only "" or [] besides numbers |
| Maps.Values | src/maps.py:429 | each value is the feature's `properties.get("value", 0)` |
| Maps.InsertDesc | src/maps.py:427-431 | insertion adds the element and drops none |
| Maps.SortDesc | src/maps.py:427-431 | the sort is a permutation |
| Maps.InsertDescSorted | src/maps.py:427-431 | insertion keeps the keys non-increasing |
| Maps.SortDescSorted | src/maps.py:427-431 | the sorted keys are non-increasing |
| Maps.InsertDescStable | src/maps.py:427-431 | insertion puts an element ahead of its equals |
| Maps.SortDescStable | src/maps.py:427-431 | features with equal values keep their input order |
| Maps.Label | src/maps.py:436 | a falsy value is "Unknown", a numeric one "<value // 60> minutes", and a truthy non-number fails |
| Maps.DrawAll | src/maps.py:433-453 | one drawn isochrone per sorted feature, in order |
| Maps.Firsts | src/maps.py:427-433 | the features of the keyed sequence, in order |
| Maps.Features | src/maps.py:433-453 | the features drawn, in order |
| Maps.DrawsPermutation | src/maps.py:427-453 | every feature is drawn exactly once, in the sorted order |
| Maps.DrawAllFeatures | src/maps.py:433-453 | the drawn features are the sorted features |
| Maps.DrawsSortedStable | src/maps.py:427-431 | the draw order has non-increasing values, and ties keep input order |
| Maps.NonNumericKeepOrder | src/maps.py:427-431 | when no value is a number the model's sort keeps the input order; in Python this holds when the values are all "" or all [], the only non-numeric values a successful drawing can hold |
| Maps.DrawAllLabels | src/maps.py:433-436 | a drawing that succeeds went through a labellable value for each of its features |
| Maps.DrawsLabelAll | src/maps.py:427-436 | a drawing that succeeds had no non-empty value that is not a number, since `value // 60` raises on it |
| Maps.BlankValuesSort | src/maps.py:427-436 | two isochrones whose values are both "" sort without error and are labelled "Unknown" |
| Maps.DrawsColors | src/maps.py:438-449 | each isochrone is filled with its name's colour, gray when the name has none |
| Maps.DrawOneFields | src/maps.py:433-449 | a drawn isochrone carries its feature, name and colour |
| Maps.FirstsCons | src/maps.py:427-433 | the features of a cons are the head's then the rest's |
| Maps.InsertDescFirsts | src/maps.py:427-431 | insertion adds its feature once |
| Maps.SortDescFirsts | src/maps.py:427-431 | sorting neither drops nor repeats a feature |
| Maps.LabelExamples | src/maps.py:436 | 600 seconds is "10 minutes"; 0 and a missing value are "Unknown" |
| Maps.LayerLookup | src/maps.py:393-421 | a layer's settings are found exactly when configured |
| Maps.Groups | src/maps.py:393-421 | the groups are draw, isochrones and centres, plus locations, shown, when included |
| Maps.CenterMarkers | src/maps.py:456-483 | one centre marker per centre row |
| Maps.LocationMarkers | src/maps.py:486-522 | rows with a missing coordinate are skipped; every row with both gets its marker |
| Maps.PlanOf | src/maps.py:267-590 | the plan has the groups, the base and extra tile layers, location markers only when included with data, and exists exactly when the isochrones can be drawn; a failure is the drawing's error |
| Maps.CreateMap | src/maps.py:267-590 | `create_map` follows the plan, with the extra layers only when `include_all_tiles` |
| Maps.WithCoordinates | src/maps.py:182 | the usable centres are exactly the rows with both coordinates |
| Maps.CheckLoaded | src/maps.py:169-190 | the checks in order: empty centres, "Center data is empty."; empty locations, "Location data is empty."; no "features", the lookup error; falsy features, "Isochrone data is empty."; no latitude or longitude column, "Centers data must contain 'latitude' and 'longitude' columns."; no row with both, "No valid Center coordinates found.", all `DataAccessError`; success has the usable centres and a non-empty feature list |
| Maps.ValidationErrorsKept | src/maps.py:124-125 | the decorator of `generate_maps` passes each `DataAccessError` of the checks through unchanged |
| Maps.GenerateMaps | src/maps.py:125-262 | load, check, colour and drawing failures pass through the decorator as application errors; the call succeeds exactly when the data pass the checks, the colours can be assigned and every isochrone can be drawn; `return_map_object` then gives the dynamic map, `PlanOf` the checked centres and features with the assigned colours and the requested options; otherwise the files "city_centers.html" and "locations.html", planned without locations or extra layers and with the locations and every tile layer |
| Maps.Generate | src/maps.py:147-262 | the same before the decorator: each failure is the error of the first step that fails, and each plan is `PlanOf` the checked centres and features with the assigned colours |
| Maps.Render | src/maps.py:201-259 | the dynamic map or the two static maps succeed exactly when every isochrone can be drawn, a failure is the drawing's error, and each plan is `PlanOf` the given centres, features and colours with the options of its call |
| Maps.TableName | src/maps.py:226-227 | the shipped map tables are "city_centers" and "locations" |
| Maps.NameField | src/maps.py:738 | the name field is "name" |
| Maps.Tag | src/maps.py:762-764 | a feature with properties lacking the name field gets the file's name there; anything else is unchanged |
| Maps.TagAll | src/maps.py:762-764 | every feature of a file is tagged, in order |
| Maps.FileFeatures | src/maps.py:741-767 | a missing file, bad JSON and other failures raise `DataAccessError`, `GeoJSONError` and `DataAccessError` with the source's messages |
| Maps.LoadLocal | src/maps.py:689-772 | a combined file is returned as read, or its failure is `DataAccessError`; no matching files is an error naming the pattern; otherwise a non-empty FeatureCollection |
| Maps.LoadIsochronesLocal | src/maps.py:689-772 | the loops compute `LoadLocal` |
| Maps.AllFeaturesFails | src/maps.py:749-759 | a failing file stops the merge with its own error |
| Maps.TagNames | src/maps.py:762-764 | tagging keeps a name already present, otherwise sets the file's name, and changes nothing else |
| Maps.IsochroneNameOfWritten | src/maps.py:743-745 | a file "<city>_isochrones.geojson" names its features after the city |
| Maps.ReplaceSuffix | src/maps.py:744-745 | removing a pattern appended to a text without its first character gives the text |
| Maps.ContainsAt | src/maps.py:744 | a text containing the pattern at some position contains it |
| Maps.Nameless | src/maps.py:783-785 | the first layer without a name, or none when all have one |
| Maps.ValidateMapConfig | src/maps.py:775-785 | the check passes exactly when colors, layers and zoom exist and every layer has a name; otherwise `ConfigError` with the first missing setting or nameless layer |
| Maps.ShippedSettingsValid | src/maps.py:775-785 | the shipped settings pass the check |
| SetupEnv.FallbackRetry | setup_env.py:90-103 | with `max_attempts <= 0` nothing is called and `None` comes back; otherwise between 1 and `max_attempts` calls, every call before the last failed and its handler raised nothing, a success returns the value of the last call, an exception from the handler propagates, the last failure re-raises the original exception, and the pauses (one fewer than the calls) are `delay * backoff^k` |
| SetupEnv.ExponentialPauses | setup_env.py:102-103 | the pauses start at `delay` and each is the previous one times `backoff`; `delay = 1, backoff = 2` gives 1, 2, 4 |
| SetupEnv.Reply | setup_env.py:141-143 | an answer decides something exactly when it trims and lower-cases to "y" or "n", and then it decides yes exactly when that is "y" |
| SetupEnv.FirstValid | setup_env.py:140-144 | finds the first acceptable answer: every earlier answer is rejected, and `None` only when no answer is acceptable |
| SetupEnv.GetUserConfirmation | setup_env.py:125-144 | non-interactively the result is `default == "y"` and nothing is read; interactively exactly the answers up to the first acceptable one are read and the result is whether it was "y"; when none is acceptable all input is consumed and nothing is decided |
| SetupEnv.FirstValidAt | setup_env.py:140-144 | an acceptable answer preceded only by rejected ones is the one the prompt stops at |
| SetupEnv.FirstValidNone | setup_env.py:140-144 | when no answer is acceptable the prompt never stops |
| SetupEnv.PackagesOf | setup_env.py:425-428 | never yields more packages than there are rows |
| SetupEnv.ParseOutdatedPackages | setup_env.py:410-429 | no packages when the stripped output has at most two lines; otherwise one package per later line with at least three fields, from its first three fields, in order |
| SetupEnv.SplitOnJoin | setup_env.py:419 | splitting lines joined by newline gives the lines back when none holds a newline |
| SetupEnv.FieldsJoin | setup_env.py:426 | `split()` on words joined by single spaces gives the words back |
| SetupEnv.FieldsRow | setup_env.py:426-428 | a table row of printable names and versions splits into name, current, latest and type |
| SetupEnv.PackagesOfRows | setup_env.py:425-428 | reading back the rows printed for printable packages gives exactly those packages |
| SetupEnv.TableLines | setup_env.py:419 | the stripped table splits into its two header lines and one line per package |
| SetupEnv.ParseTableRoundTrip | setup_env.py:419-429 | the table for n printable packages has n + 2 lines, the lines after the header are the rows, and parsing a non-empty table gives back the packages in order |
| SetupEnv.Names | setup_env.py:470 | one name per package, position by position |
| SetupEnv.Indices | setup_env.py:473-475 | never more indices than tokens; `None` exactly when some non-empty token is not an integer |
| SetupEnv.IndicesSkipBlank | setup_env.py:473-475 | a blank token adds no index |
| SetupEnv.BadTokenCancels | setup_env.py:472-481 | a selection with a non-empty token that is not an integer updates nothing |
| SetupEnv.Picked | setup_env.py:476-478 | at most one name per index and every picked name is a package's name |
| SetupEnv.UpdatePlan | setup_env.py:441-481 | no packages: nothing; `all_packages` or non-interactive: upgrade from the requirements file; "none": nothing; "all": every package name; a selection with a token that is not an integer: nothing; any upgrade by name is non-empty and names only listed packages |
| SetupEnv.PickedAppend | setup_env.py:476-478 | picking keeps the order and the repeats of the indices |
| SetupEnv.PickedOne | setup_env.py:477 | an out-of-range index is dropped and an in-range one names its package |
| SetupEnv.IndicesOfTyped | setup_env.py:473-475 | the printed 1-based numbers read back as the 0-based positions |
| SetupEnv.PickedPositions | setup_env.py:476-478 | in-range positions pick exactly the names at those positions |
| SetupEnv.TypedSelection | setup_env.py:464-475 | a comma-joined list of 1-based numbers is unchanged by trimming and lower-casing, is neither "none" nor "all", and reads back as the positions |
| SetupEnv.SelectionRoundTrip | setup_env.py:458-481 | typing the numbers shown beside some packages selects exactly those packages, in the typed order and with repeats kept |
| SetupEnv.JoinDigits | setup_env.py:464-469 | numerals joined by commas are their own trimmed, lower-cased form and are neither "none" nor "all" |

## Behaviour as coded

Three behaviours of the code worth knowing:

- `load_data` maps store failures through `handle_exception` with the mapping `{Exception: DataAccessError}`, and that mapping matches exact types only. So only a bare `Exception` becomes `DataAccessError`. Any other failure becomes `AppError("Unexpected error: ...")` (`DataUtils.LoadData`).
- In `upsert_isochrones`, the `GeoJSONError` raised for a polygon that is not a polygon or has a short ring is caught again by the `except Exception` around it. It is raised again as `GeoJSONError`, but with the prefix "Unexpected geometry error: " (`Isochrone.PolygonWktRejects`).
- Database mode stops at the first table that fails, while CSV mode skips such a table and goes on (`Geocode.ProcessDbMode`, `Geocode.ProcessCsvMode`).

## Left out

- Floating point: coordinates, travel times and JSON numbers are integers. Pauses in `SetupEnv` are reals, and no rounding is modelled.
- The geographic midpoint and the map centre of `src/utils/math_utils.py`: spherical averaging in floating point. `src/utils/math_utils.py` is not part of this model.
- Concurrency: the `ThreadPoolExecutor` of the isochrone run and the spinner of `setup_env.py`. The collection of results is the sequential fold over the outcomes, in any completion order given as a parameter.
- External services are oracles: the geocoder, the routing service, the store's query chains, the client constructors, and the filesystem (`exists`, `glob`, reads and writes). Their transport, SSL and authentication are left out.
- `json.loads` and the shapely WKB decoder are oracles that return a parse result or the text of their exception.
- Rendering: Folium maps, markers, tooltips, the Draw plugin, the injected templates, the JS and CSS files, and `minify_html`. A map is the value that says what would be drawn.
- Command-line entry points: every `main()` except the collection and output steps of `src/isochrone.py`, and `argparse`.
- `check_existing_isochrones` and the confirmation prompts of `src/isochrone.py`'s `main`: interactive control flow around the modelled steps.
- The venv and pip subprocess steps of `setup_env.py`. Only the parsing and selection logic is modelled.
- Log output: messages, handlers and the text the formatter produces. Only the context the formatter merges into a record is modelled.
- Flask: the request and response objects. Werkzeug's `HTTPException` is not part of this model. A route returns its JSON body and status code.
- Python dictionaries whose order matters are sequences of pairs. The iteration order of a Python `set` is a parameter that lists each element once.
- The texts of Python's own `TypeError`, `KeyError` and `ValueError` messages are approximated. Only the exception class is stated exactly.
- `int()` is modelled on an optional sign and ASCII digits. It does not accept underscores or non-ASCII digits. `lower()` and `isalnum()` are modelled on ASCII only.
- End of input at a prompt (`EOFError`) is a `None` result.
- `Maps.LoadIsochronesLocal`: Python writes the file-stem names into the loaded feature dictionaries in place. The model builds new features instead, so that aliasing is not captured.
- The routing URL and endpoint are the constant `App.Endpoint`. They are not a parsed URL.
- `SetupEnv.ParseTableRoundTrip`: pip's table is modelled with single spaces between columns. pip pads its columns, and `split()` reads both forms alike.
- `Maps.Pair`: every non-numeric value gets the key 0, so the model keeps non-empty strings, or non-empty lists, in input order, where Python sorts them (with `reverse=True`, "b" before "a"). Such a drawing then fails at `value // 60` in `Maps.Label` in both, so no drawing that succeeds is affected. Which feature's label raises first can differ.
- `Maps.Keys`: list values are taken to compare without error. Python compares their items, and two items of different types at the first differing position raise `TypeError` from the sort. The model raises `TypeError` from the label (`value // 60`) instead, so the class is the same and only the message differs.
- `Json.Items`: only a JSON array is iterated. Python also iterates a dictionary's keys and a string's characters, so a GeoJSON whose "features" is `{}` or `""` yields no features there (an empty bounding box, nothing upserted) but fails with `TypeError` here. JSON objects are unordered maps in this model, so their key order is not available.
- `Geocode.ProcessCsvMode`: states only that every write goes to a job's output file and that there are no more writes than jobs. The per-job write decisions are stated by `Geocode.RunCsvJob`, which the loop calls once per job.

## Findings

| source | as written | input that shows it | evidently intended | confidence | as-written member | corrected member |
|---|---|---|---|---|---|---|
| src/config/__init__.py:102-131 | the colour palette has 25 entries, but "#F90" (Amber) is the same colour as "#FF9900" (Orange), "#6A0" (Dark Lime) is the same as "#66AA00" (Lime), and "#969" appears twice (Plum and Slate) | a map with 15 isochrone names: the 3rd and the 15th are drawn in the same colour, although the palette has room for 25 | 25 different colours, so up to 25 isochrones are told apart | not executed | Maps.ShippedPaletteRepeats, Maps.ShippedColoursClash | Maps.CorrectedPaletteDistinct, Maps.CorrectedColoursDistinct |

`Maps.CorrectedSettings` is the shipped map settings with the corrected palette (Amber "#FFBF00", Dark Lime "#4C7300", Slate "#708090", every entry written as `#RRGGBB`).
