/** The project endpoints: the project list with the map bounds of every
    area of interest, and one project's page with its glaciers, a page of
    scenes and the total scene count in a response header. */
module ProjectRoutes {
  import opened Wrappers
  import opened Http
  import opened Json
  import opened Geo
  import opened Models
  import opened Decimal
  import opened GlacierController
  import opened SceneController

  /** A row of `fetch_projects`: id, name, and the GeoJSON text of a point on
      the area of interest (NULL when there is none). */
  datatype ProjectListRow = ProjectListRow(projectId: string, name: string, centerGeojson: Option<string>)

  /** A `tuple[float, float]` after validation: latitude, then longitude. */
  datatype FloatPair = FloatPair(lat: real, lon: real)

  datatype ProjectListEntry = ProjectListEntry(projectId: string, name: string, point: Option<FloatPair>)

  /** Python's `float()` on a string (surrounding blanks, exponents, `inf`
      and `nan` included), which pydantic uses for numeric text. */
  type FloatParser = string -> Option<real>

  /** A `float` field in pydantic's lax mode: a number is taken as it is, a
      boolean as 1.0 or 0.0, a string as `float()` reads it; anything else
      is a validation error. */
  function CoerceFloat(v: Value, floatOf: FloatParser): (r: Option<real>)
    ensures v.Number? ==> r == Some(v.n)
    ensures v.Bool? ==> r == Some(if v.b then 1.0 else 0.0)
    ensures v.Str? ==> r == floatOf(v.s)
    ensures v.Null? || v.Array? || v.Object? ==> r.None?
  {
    match v
    case Number(x) => Some(x)
    case Bool(b) => Some(if b then 1.0 else 0.0)
    case Str(t) => floatOf(t)
    case _ => None
  }

  /** `ProjectList(point=...)`: a present point must hold two float-coercible
      values. */
  function CoercePoint(point: Option<LatLng>, floatOf: FloatParser): (r: Result<Option<FloatPair>, GeoError>)
    ensures r.Success? <==> point.None? ||
                            (CoerceFloat(point.value.lat, floatOf).Some? && CoerceFloat(point.value.lon, floatOf).Some?)
    ensures r.Success? ==> (r.value.None? <==> point.None?)
    ensures r.Success? && point.Some? ==>
              Some(r.value.value.lat) == CoerceFloat(point.value.lat, floatOf) &&
              Some(r.value.value.lon) == CoerceFloat(point.value.lon, floatOf)
  {
    match point
    case None => Success(None)
    case Some(p) =>
      match (CoerceFloat(p.lat, floatOf), CoerceFloat(p.lon, floatOf))
      case (Some(lat), Some(lon)) => Success(Some(FloatPair(lat, lon)))
      case _ => Failure(MalformedGeometry)
  }

  /** The bounding box of one geometry as the database reports it: x is
      longitude, y is latitude. */
  datatype Box = Box(xMin: real, yMin: real, xMax: real, yMax: real)

  /** The row of `fetch_projects_bounds`. */
  datatype ExtentRow = ExtentRow(minLon: Option<real>, minLat: Option<real>, maxLon: Option<real>, maxLat: Option<real>)

  function Min(a: real, b: real): real { if a <= b then a else b }
  function Max(a: real, b: real): real { if a >= b then a else b }

  /** `ST_Extent` over the projects that have an area of interest: the
      smallest box around all their boxes, or NULL in every column when no
      project has one. */
  function ProjectsExtent(aois: seq<Option<Box>>): (r: ExtentRow)
    ensures r.minLon.Some? == r.minLat.Some? == r.maxLon.Some? == r.maxLat.Some?
    ensures r.minLon.None? <==> forall i :: 0 <= i < |aois| ==> aois[i].None?
    ensures r.minLon.Some? ==> forall i :: 0 <= i < |aois| && aois[i].Some? ==>
              && r.minLon.value <= aois[i].value.xMin && r.minLat.value <= aois[i].value.yMin
              && aois[i].value.xMax <= r.maxLon.value && aois[i].value.yMax <= r.maxLat.value
    ensures r.minLon.Some? ==> exists i :: 0 <= i < |aois| && aois[i].Some? && aois[i].value.xMin == r.minLon.value
    ensures r.minLat.Some? ==> exists i :: 0 <= i < |aois| && aois[i].Some? && aois[i].value.yMin == r.minLat.value
    ensures r.maxLon.Some? ==> exists i :: 0 <= i < |aois| && aois[i].Some? && aois[i].value.xMax == r.maxLon.value
    ensures r.maxLat.Some? ==> exists i :: 0 <= i < |aois| && aois[i].Some? && aois[i].value.yMax == r.maxLat.value
  {
    if aois == [] then ExtentRow(None, None, None, None)
    else
      var rest := ProjectsExtent(aois[1..]);
      assert forall i :: 1 <= i < |aois| ==> aois[i] == aois[1..][i - 1];
      match aois[0]
      case None => rest
      case Some(b) =>
        if rest.minLon.None? then ExtentRow(Some(b.xMin), Some(b.yMin), Some(b.xMax), Some(b.yMax))
        else ExtentRow(Some(Min(b.xMin, rest.minLon.value)), Some(Min(b.yMin, rest.minLat.value)),
                       Some(Max(b.xMax, rest.maxLon.value)), Some(Max(b.yMax, rest.maxLat.value)))
  }

  datatype ListProjectsOut = ListProjectsOut(projects: seq<ProjectListEntry>, mapBounds: Option<Bounds>)

  function ProjectEntry(row: ProjectListRow, decode: Decoder, floatOf: FloatParser): Result<ProjectListEntry, GeoError> {
    match PointToLatLng(row.centerGeojson, decode)
    case Failure(e) => Failure(e)
    case Success(point) =>
      match CoercePoint(point, floatOf)
      case Failure(e) => Failure(e)
      case Success(pair) => Success(ProjectListEntry(row.projectId, row.name, pair))
  }

  /** The comprehension over the project rows: it fails as soon as one
      centre text is malformed or its point does not validate as floats. */
  function ProjectEntries(rows: seq<ProjectListRow>, decode: Decoder, floatOf: FloatParser)
    : (r: Result<seq<ProjectListEntry>, GeoError>)
    ensures r.Success? <==> forall i :: 0 <= i < |rows| ==>
              && PointToLatLng(rows[i].centerGeojson, decode).Success?
              && CoercePoint(PointToLatLng(rows[i].centerGeojson, decode).value, floatOf).Success?
    ensures r.Success? ==> |r.value| == |rows|
    ensures r.Success? ==> forall i :: 0 <= i < |rows| ==>
              && r.value[i].projectId == rows[i].projectId
              && r.value[i].name == rows[i].name
              && PointToLatLng(rows[i].centerGeojson, decode).Success?
              && Success(r.value[i].point) == CoercePoint(PointToLatLng(rows[i].centerGeojson, decode).value, floatOf)
  {
    if rows == [] then Success([])
    else
      assert forall i :: 1 <= i < |rows| ==> rows[i] == rows[1..][i - 1];
      match ProjectEntry(rows[0], decode, floatOf)
      case Failure(e) => Failure(e)
      case Success(entry) =>
        match ProjectEntries(rows[1..], decode, floatOf)
        case Failure(e) => Failure(e)
        case Success(entries) => Success([entry] + entries)
  }

  /** `list_projects`: one entry per project row, in row order, with the
      point swapped to (lat, lon) and validated as floats; the map bounds
      from the global extent. A malformed point text or a point that is not
      numeric raises (500). */
  function ListProjects(rows: seq<ProjectListRow>, extent: ExtentRow, decode: Decoder, floatOf: FloatParser)
    : (r: Result<ListProjectsOut, HttpError>)
    ensures r.Failure? ==> r.error == InternalError
    ensures r.Success? <==> ProjectEntries(rows, decode, floatOf).Success?
    ensures r.Success? ==> r.value.projects == ProjectEntries(rows, decode, floatOf).value
    ensures r.Success? ==>
              (r.value.mapBounds.None? <==>
                 extent.minLat.None? || extent.minLon.None? || extent.maxLat.None? || extent.maxLon.None?)
    ensures r.Success? && r.value.mapBounds.Some? ==>
              r.value.mapBounds.value.southWest == Corner(extent.minLat.value, extent.minLon.value) &&
              r.value.mapBounds.value.northEast == Corner(extent.maxLat.value, extent.maxLon.value)
  {
    match ProjectEntries(rows, decode, floatOf)
    case Failure(_) => Failure(InternalError)
    case Success(projects) =>
      Success(ListProjectsOut(projects, BoundsFromMinMax(extent.minLat, extent.minLon, extent.maxLat, extent.maxLon)))
  }

  /** Without any area of interest there are no map bounds; with one, the
      bounds' first corner is south-west and the second north-east of every
      area of interest, and each of the four sides touches one of them. */
  lemma ListBoundsFromAois(rows: seq<ProjectListRow>, aois: seq<Option<Box>>, decode: Decoder, floatOf: FloatParser)
    requires ListProjects(rows, ProjectsExtent(aois), decode, floatOf).Success?
    ensures var b := ListProjects(rows, ProjectsExtent(aois), decode, floatOf).value.mapBounds;
            && (b.None? <==> forall i :: 0 <= i < |aois| ==> aois[i].None?)
            && (b.Some? ==> forall i :: 0 <= i < |aois| && aois[i].Some? ==>
                  && b.value.southWest.lat <= aois[i].value.yMin
                  && b.value.southWest.lon <= aois[i].value.xMin
                  && aois[i].value.yMax <= b.value.northEast.lat
                  && aois[i].value.xMax <= b.value.northEast.lon)
            && (b.Some? ==>
                  && (exists i :: 0 <= i < |aois| && aois[i].Some? && aois[i].value.yMin == b.value.southWest.lat)
                  && (exists i :: 0 <= i < |aois| && aois[i].Some? && aois[i].value.xMin == b.value.southWest.lon)
                  && (exists i :: 0 <= i < |aois| && aois[i].Some? && aois[i].value.yMax == b.value.northEast.lat)
                  && (exists i :: 0 <= i < |aois| && aois[i].Some? && aois[i].value.xMax == b.value.northEast.lon))
  {
  }

  /** A project whose centre is a Point with numeric coordinates is listed
      with that point as (lat, lon); one whose latitude is not float-coercible
      makes the whole list a 500. */
  lemma ListedCentre(rows: seq<ProjectListRow>, extent: ExtentRow, decode: Decoder, floatOf: FloatParser,
                     k: nat, text: string, lon: Value, lat: Value)
    requires k < |rows| && rows[k].centerGeojson == Some(text) && text != ""
    requires decode(text) == Some(PointObject(lon, lat))
    ensures CoerceFloat(lat, floatOf).None? ==> ListProjects(rows, extent, decode, floatOf) == Failure(InternalError)
    ensures lon.Number? && lat.Number? && ListProjects(rows, extent, decode, floatOf).Success? ==>
              ListProjects(rows, extent, decode, floatOf).value.projects[k].point == Some(FloatPair(lat.n, lon.n))
  {
    PointSwapsToLatLng(text, decode, lon, lat);
  }

  /** The row of `fetch_project_row`. */
  datatype ProjectDetailRow = ProjectDetailRow(
    projectId: string,
    name: string,
    description: Option<string>,
    aoiGeojson: Option<string>,
    centerGeojson: Option<string>,
    minLon: Option<real>,
    minLat: Option<real>,
    maxLon: Option<real>,
    maxLat: Option<real>)

  datatype ProjectDetails = ProjectDetails(
    projectId: string,
    name: string,
    description: Option<string>,
    aoi: Option<GeoJson>,
    glaciers: seq<GlacierListItem>,
    scenes: seq<SceneRow>)

  datatype ProjectDetailsOut = ProjectDetailsOut(
    project: ProjectDetails,
    mapCenter: Option<LatLng>,
    mapBounds: Option<Bounds>,
    sceneTotalCount: nat)

  /** The response object whose headers the handler sets. */
  class Response {
    var headers: map<string, string>

    constructor ()
      ensures headers == map[]
    {
      headers := map[];
    }
  }

  const TotalCountHeader: string := "X-Total-Count"

  /** The query parameters `limit` and `offset` when the request omits them. */
  const DefaultLimit: nat := 100
  const DefaultOffset: nat := 0

  /** With the default query parameters the scene page is the first one: the
      latest scenes of the project, up to a hundred of them. */
  lemma {:induction false} DefaultPage(scenes: seq<Scene>, projectId: string)
    ensures FetchScenesByProjectId(scenes, projectId, DefaultLimit, DefaultOffset).Success?
    ensures var page := FetchScenesByProjectId(scenes, projectId, DefaultLimit, DefaultOffset).value;
            var count := CountScenesByProjectId(scenes, projectId);
            && |page| == (if count < DefaultLimit then count else DefaultLimit)
            && page == SortByDateDesc(ProjectRows(scenes, projectId))[..|page|]
  {
    PageProperties(scenes, projectId, DefaultLimit, DefaultOffset);
  }

  /** `get_project_details`. An unknown id gets 404 before anything else is
      read. Otherwise the glacier rows found inside the area of interest are
      sorted and listed, a page of scenes is fetched, and the total count goes
      both into the body and, as a decimal string, into the `X-Total-Count`
      header. Any exception on the way (malformed GeoJSON, a negative limit
      or offset) is a 500 and leaves the headers untouched. */
  method GetProjectDetails(response: Response, project: Option<ProjectDetailRow>,
                           glacierRows: seq<GlacierRow>, store: SceneStore,
                           limit: int, offset: int, decode: Decoder)
    returns (r: Result<ProjectDetailsOut, HttpError>)
    modifies response
    ensures r == Failure(NotFound) <==> project.None?
    ensures r.Failure? ==> response.headers == old(response.headers)
    ensures r.Failure? && project.Some? ==> r.error == InternalError
    ensures project.Some? && (limit < 0 || offset < 0) ==> r == Failure(InternalError)
    ensures project.Some? ==>
              (r.Success? <==> && GeoJsonToModel(project.value.aoiGeojson, decode).Success?
                               && PointToLatLng(project.value.centerGeojson, decode).Success?
                               && (forall row :: row in glacierRows ==> RowToListItem(row, decode).Success?)
                               && limit >= 0 && offset >= 0)
    ensures r.Success? ==>
              var p := project.value;
              var count := CountScenesByProjectId(store.scenes, p.projectId);
              && r.value.sceneTotalCount == count
              && response.headers == old(response.headers)[TotalCountHeader := DecimalString(count)]
              && DecimalValue(response.headers[TotalCountHeader]) == r.value.sceneTotalCount
              && r.value.project.projectId == p.projectId
              && r.value.project.name == p.name
              && r.value.project.description == p.description
              && GeoJsonToModel(p.aoiGeojson, decode) == Success(r.value.project.aoi)
              && PointToLatLng(p.centerGeojson, decode) == Success(r.value.mapCenter)
              && r.value.mapBounds == BoundsFromMinMax(p.minLat, p.minLon, p.maxLat, p.maxLon)
              && Success(r.value.project.scenes) == FetchScenesByProjectId(store.scenes, p.projectId, limit, offset)
              && |r.value.project.scenes| <= limit
              && exists sorted :: && Sorted(sorted)
                                  && multiset(sorted) == multiset(glacierRows)
                                  && ToListItems(sorted, decode) == Success(r.value.project.glaciers)
  {
    if project.None? {
      return Failure(NotFound);
    }
    var p := project.value;
    var aoi := GeoJsonToModel(p.aoiGeojson, decode);
    if aoi.Failure? {
      return Failure(InternalError);
    }
    var center := PointToLatLng(p.centerGeojson, decode);
    if center.Failure? {
      return Failure(InternalError);
    }
    var bounds := BoundsFromMinMax(p.minLat, p.minLon, p.maxLat, p.maxLon);

    var rows := new GlacierRow[|glacierRows|](i requires 0 <= i < |glacierRows| => glacierRows[i]);
    assert rows[..] == glacierRows;
    var glaciers := GlacierRowsToListItems(rows, decode);
    if glaciers.Failure? {
      var i :| 0 <= i < rows.Length && RowToListItem(rows[..][i], decode).Failure?;
      assert rows[..][i] in multiset(glacierRows);
      return Failure(InternalError);
    }
    forall row | row in glacierRows
      ensures RowToListItem(row, decode).Success?
    {
      assert row in multiset(rows[..]);
    }

    var scenes := FetchScenesByProjectId(store.scenes, p.projectId, limit, offset);
    if scenes.Failure? {
      return Failure(InternalError);
    }
    PageProperties(store.scenes, p.projectId, limit, offset);

    var total := CountScenesByProjectId(store.scenes, p.projectId);
    response.headers := response.headers[TotalCountHeader := DecimalString(total)];
    DecimalRoundTrip(total);

    r := Success(ProjectDetailsOut(
      ProjectDetails(p.projectId, p.name, p.description, aoi.value, glaciers.value, scenes.value),
      center.value, bounds, total));
  }
}
