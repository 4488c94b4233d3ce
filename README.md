# Glacier Watch API — a Dafny model of its core

Glacier Watch is a FastAPI service over a PostGIS database. It tracks
satellite scenes per project, lists the glaciers inside a project's area of
interest, serves per-glacier snow-cover timeseries and lets operators browse
and download result files. This project models the rules in its handlers and
controllers and proves what they promise:

- the scene record, its nine-value status enumeration, the defaults of a new
  scene and the permissive status update behind the API-key guarded `PATCH`;
- scene pagination and counting: filter by project, newest acquisition first
  (NULL dates first), skip `offset`, take `limit`;
- the geometry adapter: GeoJSON `[lon, lat]` points swapped to `[lat, lon]`
  (section 3.1.1 of RFC 7946), all-or-nothing map bounds, and the six
  geometry types of section 3.1 of RFC 7946 that the API model accepts;
- the in-place glacier list sort (named before unnamed, then case-folded
  name, then id) and the mapping to list items;
- the handlers' decision logic: the glacier-area guard in front of the
  snow-fraction division, the project list and its bounds, the project page
  with its `X-Total-Count` header;
- the process-wide logging context and its None-preserving record filter;
- byte-size unit selection;
- the path-containment and existence checks of the result-file download.

The database is an in-memory sequence of rows, spatial SQL results are
inputs, and `json.loads` is a parameter `decode: string -> Option<Value>`
(`None` when the text is not JSON). An exception that the handler does not
catch becomes `Failure(InternalError)`, FastAPI's 500. Timestamps are
integers, and each reading of the clock is a parameter (`now`, or
`createdNow` and `updatedNow` where two columns each call `datetime.now`).
Floats are `real`.

Modules, one per source file plus shared ones: `Wrappers` (Option, Result),
`Http` (status codes), `Json` (parsed values), `Sorting` (a stable
insertion sort over a total preorder, the reference for SQL `ORDER BY`),
`Decimal` (`str(int)` and its inverse), `Models`, `Geo`, `GlacierController`,
`SceneController`, `SceneRoutes`, `GlacierRoutes`, `ProjectRoutes`, `Logger`,
`DataController`, `DataRoutes`.

Where the docstrings and schema field descriptions and the code differ, the
model follows the code:

- Geometry text that is malformed or has an unknown `type` raises inside the
  handler. The model gives 500, not 400.
- A status that is not one of the nine values is rejected by FastAPI's
  parameter validation before the handler runs. The handler's 400 branch for
  `KeyError` is therefore unreachable: `SceneRoutes.PatchSceneStatus`
  proves it never answers 400.
- `updated_at` changes only when the status really changes. SQLAlchemy's
  `onupdate` fires only when an UPDATE is issued, and setting the same value
  issues none.
- A glacier with a NULL or zero area gets 404 from the timeseries endpoint.
- The glacier detail endpoint fails for every existing glacier (see
  Findings).
- The download handler reads the data root from a configuration attribute
  that `src/config.py` does not define (lines 11-14). The model takes the
  data root as a parameter.

## Model

| member | source | states |
|---|---|---|
| Models.StatusEnumHasNineDistinctMembers | src/models.py:11-20 | exactly nine statuses; every status is among them; their names are pairwise distinct |
| Models.ParseStatus | src/models.py:11-20 | a value parses only to the status with that exact name; a value that is no status's name parses to nothing |
| Models.ParseStatusOfName | src/models.py:11-20 | each status's name parses back to that status (value equals name) |
| Models.NewScene | src/models.py:36-66 | a new scene has status discovered, both attempt counters 0, no paths or error, created_at and updated_at are their own clock readings, and keeps the given id, project, href and date |
| Models.FilterSnowData | src/models.py:80-82 | the kept snow rows are exactly the input rows that pass the test |
| Models.DeleteGlacier | src/models.py:69-82 | deleting a glacier removes exactly that glacier and exactly its snow rows; analysis results are untouched |
| Models.DeleteAnalysisResult | src/models.py:100-112 | deleting an analysis result removes exactly it and exactly its snow rows; glaciers are untouched |
| Geo.PointToLatLng | src/utils/geo.py:6-12 | the result is "no point" exactly when the text is None or empty |
| Geo.PointSwapsToLatLng | src/utils/geo.py:10-12 | a Point with coordinates [lon, lat] yields [lat, lon] |
| Geo.LatLngRoundTrip | src/utils/geo.py:11-12 | swapping the result back gives the original coordinate pair |
| Geo.PointNeedsTwoCoordinates | src/utils/geo.py:11 | a coordinates array without exactly two elements fails |
| Geo.BoundsFromMinMax | src/utils/geo.py:21-35 | no bounds iff one of the four values is None; otherwise ((min_lat, min_lon), (max_lat, max_lon)) unchanged |
| Geo.ParseGeometryType | src/schemas/shared.py:6-14 | a type name parses only to the geometry type of that name; other names parse to nothing |
| Geo.ValidateGeoJson | src/schemas/shared.py:6-17 | a parsed value is accepted iff it is an object whose type is one of the six names and which has coordinates; the model keeps both |
| Geo.GeoJsonToModel | src/utils/geo.py:15-18 | no geometry exactly when the text is None or empty; otherwise the decoded text validated as GeoJSON |
| Geo.GeoJsonAcceptsTheSixTypes | src/utils/geo.py:15-18 | every object whose type is one of the six names is accepted with its coordinates |
| Geo.GeoJsonRejectsOtherTypes | src/utils/geo.py:15-18 | an object with any other type name fails |
| GlacierController.KeyLessIsStrictTotalOrder | src/controller/glacier.py:78-80 | the sort-key comparison (name-is-None, case-folded name, id) is a strict total order |
| GlacierController.StrLessTransitive | src/controller/glacier.py:79 | Python string `<` is transitive |
| GlacierController.StrLessTrichotomy | src/controller/glacier.py:79 | two strings are equal or one is smaller |
| GlacierController.BeforeTransitive | src/controller/glacier.py:79 | "sorts no later than" is transitive over rows |
| GlacierController.SortGlacierRows | src/controller/glacier.py:78-80 | the caller's array ends sorted by the key and is a permutation of its old contents |
| GlacierController.InsertLast | src/controller/glacier.py:78-80 | one insertion pass extends the sorted prefix by one element and permutes the array |
| GlacierController.RowToListItem | src/controller/glacier.py:69-74 | the item copies id and name, and its point is the lat/lon swap of the point text |
| GlacierController.ToListItems | src/controller/glacier.py:81 | one item per row in row order; it fails iff some row's point text is malformed |
| GlacierController.GlacierRowsToListItems | src/controller/glacier.py:77-83 | the rows are left sorted in place and permuted, and the items are the sorted rows mapped in order |
| GlacierController.NamedBeforeUnnamed | src/controller/glacier.py:79 | in a sorted list every named glacier precedes every unnamed one |
| GlacierController.NamedByFoldedName | src/controller/glacier.py:79 | named glaciers appear in ascending case-folded name |
| GlacierController.TiesById | src/controller/glacier.py:79 | equal name keys are ordered by ascending id |
| GlacierController.UnnamedById | src/controller/glacier.py:79 | unnamed glaciers are ordered by id |
| GlacierController.EmptyNameSortsFirst | src/controller/glacier.py:79 | an empty name counts as named and comes before every other named glacier |
| GlacierController.FetchGlacierArea | src/controller/glacier.py:20-24 | an area is the stored area of the glacier with that id; the first row with that id gives its area, NULL included; an unknown id has none |
| GlacierController.JoinedObservations | src/controller/glacier.py:55-66 | the joined rows are exactly the glacier's snow rows whose scene exists, each with its scene's date |
| GlacierController.JoinedObservationsPerRow | src/controller/glacier.py:55-66 | one observation per snow row of the glacier whose scene exists, in store order and with its scene's date, and no other |
| GlacierController.CreatedOrderIsTotalPreorder | src/controller/glacier.py:60 | ordering by created_at is a total preorder |
| GlacierController.FetchGlacierTimeseries | src/controller/glacier.py:55-66 | the timeseries is a permutation of the joined rows, ascending by created_at, only of that glacier |
| SceneController.FindScene | src/controller/scene.py:15-18 | the scene found has the id and is stored; nothing is found iff no stored scene has the id |
| SceneController.FindIsUnique | src/controller/scene.py:15-18 | with unique ids, looking up a stored scene's id finds that scene |
| SceneController.WithStatus | src/controller/scene.py:21-26 | any status is accepted from any status; only status changes, plus updated_at = now when the value changed |
| SceneController.SetStatusEffect | src/controller/scene.py:21-26 | the update keeps ids unique, changes only the scene with that id, and changes nothing when no scene has it |
| SceneController.SceneStore.UpdateSceneStatus | src/controller/scene.py:21-26 | the store's scene is replaced by the updated one, which is returned and found afterwards |
| SceneController.ProjectRows | src/controller/scene.py:29-34 | the rows are exactly the scenes of that project |
| SceneController.CountIsNumberOfProjectRows | src/controller/scene.py:43-47 | the count equals the number of the project's scenes |
| SceneController.DateOrderIsTotalPreorder | src/controller/scene.py:35 | descending acquisition date with NULLs first is a total preorder |
| SceneController.SortByDateDesc | src/controller/scene.py:35 | a permutation of the rows, sorted by that order |
| SceneController.FetchScenesByProjectId | src/controller/scene.py:29-40 | a negative limit or offset is a database error, and only then |
| SceneController.PageProperties | src/controller/scene.py:29-47 | a page holds only the project's scenes, newest first; its length is min(limit, max(0, count - offset)), so it is at most the count and empty once offset reaches the count |
| SceneController.ConsecutivePages | src/controller/scene.py:29-40 | two consecutive pages together are the page of their joint limit |
| SceneRoutes.GetSceneDetails | src/routes/scene.py:15-29 | 404 iff no scene has the id; otherwise the stored scene's fields, both attempt counters and last_error included |
| SceneRoutes.DetailsEchoTheStoredScene | src/routes/scene.py:15-29 | for unique ids, the details of a stored scene are exactly its fields |
| SceneRoutes.PatchSceneStatus | src/routes/scene.py:32-55 | a wrong key gives 403 with the store unchanged; an unknown id gives 404 with the store unchanged; otherwise the scene takes the new status and the reply echoes id and status name; never 400 |
| GlacierRoutes.GetGlacierTimeseries | src/routes/glacier.py:47-81 | 404 iff the area is NULL or zero, so the divisor is never zero; otherwise one point per row in order, fraction × area = snow area, the id echoed; 500 iff a row has no snow area or date |
| GlacierRoutes.UnknownGlacierHasNoArea | src/routes/glacier.py:55-59 | an unknown glacier takes the 404 path |
| GlacierRoutes.GetGlacierDetailsAsWritten | src/routes/glacier.py:23-44 | 404 iff no row; every existing glacier fails |
| GlacierRoutes.DetailsOfAnExistingGlacierFail | src/routes/glacier.py:28-41 | the handler's default glacier id gets a 500 |
| GlacierRoutes.GetGlacierDetails | src/routes/glacier.py:23-44 | with the area selected: 404 iff no row; for a row, text that is not JSON gives 500, and otherwise 200 iff the decoded value is null or valid GeoJSON; null gives no geometry; id, name and area echoed; for a non-null value the geometry is the validated GeoJSON; every other failure is 500 |
| ProjectRoutes.ProjectsExtent | src/controller/project.py:36-46 | all four extent values are NULL iff no project has an area of interest; otherwise the extent is the smallest box around every project's box: it encloses each one and each side touches one |
| ProjectRoutes.ProjectEntries | src/routes/project.py:33-40 | one entry per project row in row order, id and name copied, point the lat/lon swap of the center text validated as two floats; fails iff some centre text is malformed or its point is not float-coercible |
| ProjectRoutes.CoercePoint | src/schemas/project.py:15-19 | `point: Optional[tuple[float, float]]`: no point stays none; a point passes iff both values coerce to float (number, boolean or numeric text), and the pair holds the coerced values |
| ProjectRoutes.ListProjects | src/routes/project.py:25-49 | the entries above; no map bounds iff an extent value is NULL; otherwise (min_lat, min_lon) then (max_lat, max_lon); malformed text or a non-numeric point gives 500 |
| ProjectRoutes.ListedCentre | src/routes/project.py:33-40 | a numeric centre Point [lon, lat] is listed as the float pair (lat, lon); a latitude that is not float-coercible makes the list 500 |
| ProjectRoutes.ListBoundsFromAois | src/routes/project.py:29-47 | no map bounds iff no project has an area; otherwise the first corner is south-west and the second north-east of every area, and each side touches one of them |
| ProjectRoutes.GetProjectDetails | src/routes/project.py:57-105 | 404 iff the project is unknown, before anything else is read; for a known project 200 iff the area and centre parse, every glacier row converts and limit and offset are non-negative, and 500 otherwise; X-Total-Count is the decimal string whose value is the body's scene count; at most `limit` scenes, the fetched page; glaciers are the sorted permutation of the fetched rows mapped in order; the bounds put YMin/XMin first; headers untouched on failure |
| ProjectRoutes.DefaultPage | src/routes/project.py:61-62 | with the defaults limit 100 and offset 0, the page succeeds and is the first min(100, count) scenes, newest first |
| Decimal.DecimalString | src/routes/project.py:91 | `str` of a count is a non-empty digit string with no leading zero |
| Decimal.DecimalRoundTrip | src/routes/project.py:91 | reading the digit string back gives the count |
| Logger.Merge | src/logger.py:32-38 | new keys are added, given keys take the given values, other keys keep theirs |
| Logger.ContextFilter.UpdateContext | src/logger.py:32-38 | the context becomes the merge of the old context and the pairs |
| Logger.Remove | src/logger.py:80-82 | exactly the listed keys that were present are gone; other keys keep their values |
| Logger.RemoveLogContext | src/logger.py:65-82 | the listed keys are deleted in order, front to back; the shared context loses them, absent ones ignored |
| Logger.AddLogContext | src/logger.py:50-62 | the shared context becomes the merge with the pairs |
| Logger.AddThenRemove | src/logger.py:72-78 | a key added and then removed is absent; other keys are as the merge left them |
| Logger.RemoveAbsentKeys | src/logger.py:80-82 | removing absent keys changes nothing and raises nothing |
| Logger.ContextFilter.Filter | src/logger.py:40-44 | the filter always passes the record and leaves its attributes as the filter rule computes |
| Logger.FilterRule | src/logger.py:41-43 | only attributes named by context keys change; a None attribute stays None; an absent or non-None one takes the context value |
| Logger.FilterIdempotent | src/logger.py:40-44 | filtering a record twice equals filtering it once |
| Logger.Logger.Configure | src/logger.py:105-111 | the logger is set to INFO and carries the shared filter exactly once |
| Logger.SharedContext | src/logger.py:47-62 | usage example: two configured loggers both carry the one shared filter, whose context holds the added pairs |
| DataController.UnitIndex | src/controller/data.py:13-19 | the unit index is the least k < 5 with size / 1024^k < 1024, else 5 (PB) |
| DataController.BytesToReadable | src/controller/data.py:13-19 | the unit is the one at that index and the value is size / 1024^index |
| DataController.SmallSizeInBytes | src/controller/data.py:15-17 | a size below 1024 is reported in B, unchanged |
| DataController.ExactlyOneKilobyte | src/controller/data.py:16-18 | exactly 1024 is 1 KB, because the bound is strict |
| DataController.HugeSizesArePetabytes | src/controller/data.py:19 | from 1024^5 on the unit is PB and the value is size / 1024^5 |
| DataController.PetabytesOverflow | src/controller/data.py:19 | 1024^6 bytes is reported as 1024 PB, outside [0, 1024) |
| DataController.ValueBelow1024 | src/controller/data.py:16-17 | a non-negative size reported in B to TB has a value in [0, 1024) |
| DataRoutes.Resolve | src/routes/data.py:202-206 | a resolved path has no empty, "." or ".." segment |
| DataRoutes.DownloadResultFile | src/routes/data.py:201-224 | 400 iff the base is not a proper ancestor of the file path; 404 only for a contained path that is not an existing file; success returns the file path, strictly under the base and existing; a contained path that exists is always served |
| DataRoutes.BaseItselfRejected | src/routes/data.py:208 | a path resolving to the base itself is rejected, whatever exists |
| DataRoutes.MissingFileIsNotFound | src/routes/data.py:214-218 | a contained path that is not an existing file gives 404 |
| DataRoutes.PlainNamesStayInside | src/routes/data.py:202-208 | plain relative names resolve to base + project + folder + file, strictly under the base |
| DataRoutes.TraversalIsRejected | src/routes/data.py:206-212 | with root /data, project id `..`, folder `etc` and file `passwd`, one segment each as the route delivers them, resolve to /data/etc/passwd, which gets 400 although it exists |

## Left out

- Spatial SQL (`ST_Within`, `ST_PointOnSurface`, `ST_XMin` and the others,
  `ST_AsGeoJSON`): their results are inputs. `GetProjectDetails` takes the
  glacier rows inside the area of interest as given. `ProjectsExtent` models
  `ST_Extent` only as the min/max reduction over per-project boxes.
- Database sessions, commit and refresh: persistence is an in-memory
  sequence. A failed statement is a `Failure`.
- `json.loads` and pydantic internals: JSON text decoding is the `decode`
  parameter. Response-model validation is not modelled. Two examples: a NULL
  project description, and a project with a scene whose `acquisition_date`
  is NULL. `SceneListItem.acquisition_date` is required
  (src/schemas/scene.py:9), and such scenes sort first under DESC, so the
  first page of that project is a 500 where `GetProjectDetails` gives 200.
- Python's `float()` on text, which pydantic uses to coerce a numeric string
  in `ProjectList.point`: it is the parameter `floatOf` of `ListProjects`.
- FastAPI routing and the 422 answer for an invalid enum path parameter.
- `get_folder_contents`, the folder listing and deletion handlers of
  `src/routes/data.py` (lines 15-195), and all other filesystem I/O. File
  existence is a set of existing regular-file paths.
- DataRoutes.Resolve: symbolic links are not followed; resolution is lexical
  normalisation only. Each path parameter arrives already split into
  segments, with a flag saying whether it is absolute.
- DataController.BytesToReadable: the `:.2f` formatting and the string it
  builds are not modelled. Division by 1024 is exact on `real`.
- GlacierRoutes.GetGlacierTimeseries: the fraction is exact real division.
  Float rounding and the int-to-float conversion above 2^53 are not modelled.
- GlacierController.CaseFold: only ASCII letters are lowered. Full Unicode
  `casefold` is not modelled.
- Geo.PointToLatLng: unpacking a two-key JSON object or a two-character
  string as coordinates succeeds in Python with the keys or characters. The
  model handles the string and treats an object as malformed.
- SceneController.FetchScenesByProjectId: Postgres leaves the order of rows
  with equal acquisition dates unspecified. The model keeps their stored
  order, and its lemmas state only the date order.
- GlacierController.FetchGlacierTimeseries: the order of rows with equal
  created_at is likewise fixed to the stored order.
- Logging output: `CustomJsonFormatter`, the stream handler, levels other
  than the INFO setting, and the log calls inside the handlers.
- `src/routes.py`, an older duplicate of the handlers, superseded by the
  handlers under `src/routes/`, which are the ones modelled.
- Environment loading and the application entry point (`src/config.py`,
  `src/main.py`).
- Project creation with folder provisioning: it is not part of this model.

## Findings

| source | as written | input that shows it | evidently intended | confidence | as-written member | corrected member |
|---|---|---|---|---|---|---|
| src/routes/glacier.py:39 | the handler reads `glacier.area_m2`, but the row from `fetch_glacier_details` (src/controller/glacier.py:43-47) selects only id, name and geometry text, so the access raises and every existing glacier gets 500 | `GET /glacier/RGI2000-v7.0-G-08-00761`, the handler's own default id, for a stored glacier | the query also selects `Glacier.area_m2` and the response echoes it | high, not executed | GlacierRoutes.GetGlacierDetailsAsWritten | GlacierRoutes.GetGlacierDetails |
