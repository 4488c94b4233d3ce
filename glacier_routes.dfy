/** The glacier endpoints: details by id, and the snow timeseries with its
    snow-area fraction. */
module GlacierRoutes {
  import opened Wrappers
  import opened Http
  import opened Json
  import opened Geo
  import opened Models
  import opened GlacierController

  /** One point of the timeseries. */
  datatype TimeseriesPoint = TimeseriesPoint(
    acquisitionDate: Timestamp,
    snowAreaM2: int,
    snowAreaFraction: real,
    snowlineElevationM: Option<int>)

  datatype TimeseriesOut = TimeseriesOut(glacierId: string, timeseries: seq<TimeseriesPoint>)

  /** `not glacier_area_m2`: no area, or an area of zero. */
  predicate NoArea(area: Option<real>) {
    area.None? || area.value == 0.0
  }

  /** A row can become a point: its snow area is not NULL (the division
      would raise `TypeError`) and its scene has a date (the point's model
      requires one). */
  predicate Presentable(o: SnowObservation) {
    o.data.snowAreaM2.Some? && o.acquisitionDate.Some?
  }

  /** `p` is the point shown for row `o` of a glacier of area `area`. */
  predicate Shows(p: TimeseriesPoint, o: SnowObservation, area: real) {
    && Presentable(o)
    && p.acquisitionDate == o.acquisitionDate.value
    && p.snowAreaM2 == o.data.snowAreaM2.value
    && p.snowAreaFraction * area == p.snowAreaM2 as real
    && p.snowlineElevationM == o.data.snowlineElevationM
  }

  /** `get_glacier_timeseries`: 404 unless the glacier has a non-zero area,
      so the fraction's divisor is never zero; then one point per fetched row,
      in fetched order. */
  method GetGlacierTimeseries(glacierId: string, area: Option<real>, rows: seq<SnowObservation>)
    returns (r: Result<TimeseriesOut, HttpError>)
    ensures r == Failure(NotFound) <==> NoArea(area)
    ensures r == Failure(InternalError) <==>
              !NoArea(area) && exists i :: 0 <= i < |rows| && !Presentable(rows[i])
    ensures r.Success? || r == Failure(NotFound) || r == Failure(InternalError)
    ensures r.Success? ==>
              && r.value.glacierId == glacierId
              && |r.value.timeseries| == |rows|
              && forall i :: 0 <= i < |rows| ==> Shows(r.value.timeseries[i], rows[i], area.value)
  {
    if area.None? || area.value == 0.0 {
      return Failure(NotFound);
    }
    var a := area.value;
    var timeseries: seq<TimeseriesPoint> := [];
    for i := 0 to |rows|
      invariant |timeseries| == i
      invariant forall k :: 0 <= k < i ==> Shows(timeseries[k], rows[k], a)
    {
      var row := rows[i];
      if row.data.snowAreaM2.None? || row.acquisitionDate.None? {
        return Failure(InternalError);
      }
      var snow := row.data.snowAreaM2.value;
      timeseries := timeseries + [TimeseriesPoint(row.acquisitionDate.value, snow, snow as real / a,
                                                  row.data.snowlineElevationM)];
    }
    r := Success(TimeseriesOut(glacierId, timeseries));
  }

  /** An unknown glacier, or one whose area is NULL, gets 404 before any
      snow data is read. */
  lemma UnknownGlacierHasNoArea(glaciers: seq<Glacier>, glacierId: string)
    requires forall g :: g in glaciers ==> g.glacierId != glacierId
    ensures NoArea(FetchGlacierArea(glaciers, glacierId))
  {
  }

  /** The row `fetch_glacier_details` selects: id, name and the geometry's
      GeoJSON text, and no area. */
  datatype DetailsRow = DetailsRow(glacierId: string, name: Option<string>, geometryGeojson: string)

  /** The same row with the area column added to the select. */
  datatype DetailsRowWithArea = DetailsRowWithArea(
    glacierId: string, name: Option<string>, areaM2: Option<real>, geometryGeojson: string)

  datatype GlacierDetailsOut = GlacierDetailsOut(
    glacierId: string, name: Option<string>, areaM2: Option<real>, geometry: Option<GeoJson>)

  /** `get_glacier_details` as written: the handler reads `glacier.area_m2`
      from a row that has no such column, which raises `AttributeError`, so
      every existing glacier gets a 500. */
  function GetGlacierDetailsAsWritten(row: Option<DetailsRow>): (r: Result<GlacierDetailsOut, HttpError>)
    ensures r == Failure(NotFound) <==> row.None?
    ensures r.Failure?
  {
    match row
    case None => Failure(NotFound)
    case Some(_) => Failure(InternalError)
  }

  /** The handler's own default id, a glacier that exists, fails. */
  lemma DetailsOfAnExistingGlacierFail(geometryGeojson: string)
    ensures GetGlacierDetailsAsWritten(Some(DetailsRow("RGI2000-v7.0-G-08-00761", None, geometryGeojson)))
            == Failure(InternalError)
  {
  }

  /** `get_glacier_details` with the area selected: 404 for an unknown id;
      otherwise id, name and area echoed, and the geometry text read as
      GeoJSON (`null` gives no geometry; malformed text raises). */
  function GetGlacierDetails(row: Option<DetailsRowWithArea>, decode: Decoder)
    : (r: Result<GlacierDetailsOut, HttpError>)
    ensures r == Failure(NotFound) <==> row.None?
    ensures r.Success? ==>
              && r.value.glacierId == row.value.glacierId
              && r.value.name == row.value.name
              && r.value.areaM2 == row.value.areaM2
    ensures r.Success? && r.value.geometry.Some? ==>
              decode(row.value.geometryGeojson).Some? &&
              ValidateGeoJson(decode(row.value.geometryGeojson).value) == Success(r.value.geometry.value)
    ensures row.Some? && r.Failure? ==> r.error == InternalError
    ensures row.Some? && decode(row.value.geometryGeojson).None? ==> r == Failure(InternalError)
    ensures row.Some? && decode(row.value.geometryGeojson).Some? ==>
              (r.Success? <==> decode(row.value.geometryGeojson).value == Null ||
                               ValidateGeoJson(decode(row.value.geometryGeojson).value).Success?)
    ensures row.Some? && decode(row.value.geometryGeojson).Some? &&
            decode(row.value.geometryGeojson).value != Null && r.Success? ==>
              r.value.geometry == Some(ValidateGeoJson(decode(row.value.geometryGeojson).value).value)
    ensures row.Some? && decode(row.value.geometryGeojson) == Some(Null) ==>
              r == Success(GlacierDetailsOut(row.value.glacierId, row.value.name, row.value.areaM2, None))
  {
    match row
    case None => Failure(NotFound)
    case Some(g) =>
      match decode(g.geometryGeojson)
      case None => Failure(InternalError)
      case Some(Null) => Success(GlacierDetailsOut(g.glacierId, g.name, g.areaM2, None))
      case Some(v) =>
        match ValidateGeoJson(v)
        case Failure(_) => Failure(InternalError)
        case Success(geometry) => Success(GlacierDetailsOut(g.glacierId, g.name, g.areaM2, Some(geometry)))
  }
}
