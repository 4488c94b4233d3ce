/** The geometry adapter: GeoJSON text from the database to display values.
    Positions arrive in RFC 7946 order (longitude, latitude; section 3.1.1)
    and are shown latitude first. */
module Geo {
  import opened Wrappers
  import opened Json

  /** Any exception raised while reading the text (decode error, `KeyError`,
      `TypeError`, `ValueError` from unpacking, a validation error). */
  datatype GeoError = MalformedGeometry

  /** The `[lat, lon]` list handed to the client. `geojson_point_to_latlng`
      does not check that the two values are numbers; they are passed on as
      decoded. */
  datatype LatLng = LatLng(lat: Value, lon: Value)

  /** `not s` for an optional string: `None` and `""` are falsy. */
  predicate Falsy(s: Option<string>) {
    s.None? || s.value == ""
  }

  /** `pt["coordinates"]`: only a JSON object can be indexed by a string key;
      anything else raises. */
  function Member(v: Value, key: string): Option<Value> {
    if v.Object? && key in v.fields then Some(v.fields[key]) else None
  }

  /** `a, b = v`: unpacking needs an iterable of exactly two items. A list
      gives its items; a two-character string gives its characters. */
  function Unpack2(v: Value): Option<(Value, Value)> {
    match v
    case Array(items) => if |items| == 2 then Some((items[0], items[1])) else None
    case Str(s) => if |s| == 2 then Some((Str([s[0]]), Str([s[1]]))) else None
    case _ => None
  }

  /** `geojson_point_to_latlng`. */
  function PointToLatLng(text: Option<string>, decode: Decoder): (r: Result<Option<LatLng>, GeoError>)
    ensures r == Success(None) <==> Falsy(text)
  {
    if Falsy(text) then Success(None)
    else
      match decode(text.value)
      case None => Failure(MalformedGeometry)
      case Some(pt) =>
        match Member(pt, "coordinates")
        case None => Failure(MalformedGeometry)
        case Some(coordinates) =>
          match Unpack2(coordinates)
          case None => Failure(MalformedGeometry)
          case Some((lon, lat)) => Success(Some(LatLng(lat, lon)))
  }

  /** The RFC 7946 encoding of a position, longitude first. */
  function Position(lon: Value, lat: Value): Value {
    Array([lon, lat])
  }

  /** Swapping a displayed pair back to GeoJSON order. */
  function ToPosition(p: LatLng): Value {
    Position(p.lon, p.lat)
  }

  /** A GeoJSON Point with the given position. */
  function PointObject(lon: Value, lat: Value): Value {
    Object(map["type" := Str("Point"), "coordinates" := Position(lon, lat)])
  }

  /** Text that decodes to the Point at `[lon, lat]` is shown as
      `[lat, lon]`, and swapping back gives the original position. */
  lemma PointSwapsToLatLng(text: string, decode: Decoder, lon: Value, lat: Value)
    requires text != ""
    requires decode(text) == Some(PointObject(lon, lat))
    ensures PointToLatLng(Some(text), decode) == Success(Some(LatLng(lat, lon)))
    ensures ToPosition(LatLng(lat, lon)) == Position(lon, lat)
  {
  }

  /** Whatever the decoded object holds, a successful conversion swaps the two
      items of its `coordinates` list, and swapping back restores the list. */
  lemma LatLngRoundTrip(text: Option<string>, decode: Decoder)
    requires PointToLatLng(text, decode).Success?
    requires PointToLatLng(text, decode).value.Some?
    requires Member(decode(text.value).value, "coordinates").value.Array?
    ensures ToPosition(PointToLatLng(text, decode).value.value)
            == Member(decode(text.value).value, "coordinates").value
  {
  }

  /** A `coordinates` list of any length other than two makes the unpacking
      raise. */
  lemma PointNeedsTwoCoordinates(text: string, decode: Decoder, items: seq<Value>)
    requires text != ""
    requires decode(text).Some?
    requires Member(decode(text).value, "coordinates") == Some(Array(items))
    requires |items| != 2
    ensures PointToLatLng(Some(text), decode) == Failure(MalformedGeometry)
  {
  }

  /** A south-west / north-east pair of (lat, lon) corners. */
  datatype Corner = Corner(lat: real, lon: real)
  datatype Bounds = Bounds(southWest: Corner, northEast: Corner)

  /** `bounds_from_minmax`: all four values or nothing. */
  function BoundsFromMinMax(minLat: Option<real>, minLon: Option<real>,
                            maxLat: Option<real>, maxLon: Option<real>): (r: Option<Bounds>)
    ensures r.None? <==> (minLat.None? || minLon.None? || maxLat.None? || maxLon.None?)
    ensures r.Some? ==>
              r.value.southWest == Corner(minLat.value, minLon.value) &&
              r.value.northEast == Corner(maxLat.value, maxLon.value)
  {
    if minLat.None? || minLon.None? || maxLat.None? || maxLon.None? then None
    else Some(Bounds(Corner(minLat.value, minLon.value), Corner(maxLat.value, maxLon.value)))
  }

  /** The six geometry types the `GeoJSON` schema admits (of the seven of
      section 3.1 of RFC 7946, GeometryCollection is missing). */
  datatype GeometryType =
    | Point
    | LineString
    | Polygon
    | MultiPoint
    | MultiLineString
    | MultiPolygon
  {
    function Name(): string {
      match this
      case Point => "Point"
      case LineString => "LineString"
      case Polygon => "Polygon"
      case MultiPoint => "MultiPoint"
      case MultiLineString => "MultiLineString"
      case MultiPolygon => "MultiPolygon"
    }
  }

  /** Validation of the `type` literal. */
  function ParseGeometryType(name: string): (r: Option<GeometryType>)
    ensures r.Some? ==> r.value.Name() == name
    ensures r.None? ==> forall t: GeometryType :: t.Name() != name
  {
    if name == "Point" then Some(Point)
    else if name == "LineString" then Some(LineString)
    else if name == "Polygon" then Some(Polygon)
    else if name == "MultiPoint" then Some(MultiPoint)
    else if name == "MultiLineString" then Some(MultiLineString)
    else if name == "MultiPolygon" then Some(MultiPolygon)
    else None
  }

  /** The validated `GeoJSON` model: a type and coordinates of any shape. */
  datatype GeoJson = GeoJson(kind: GeometryType, coordinates: Value)

  /** `GeoJSON(**value)`: the value must be an object (`**` needs a mapping)
      whose `type` is one of the six names and which has `coordinates`;
      other members are ignored. */
  function ValidateGeoJson(v: Value): (r: Result<GeoJson, GeoError>)
    ensures r.Success? <==>
              v.Object? && "coordinates" in v.fields && "type" in v.fields &&
              v.fields["type"].Str? && ParseGeometryType(v.fields["type"].s).Some?
    ensures r.Success? ==> r.value.coordinates == v.fields["coordinates"] &&
                           r.value.kind.Name() == v.fields["type"].s
  {
    match Member(v, "type")
    case Some(Str(name)) =>
      (match (ParseGeometryType(name), Member(v, "coordinates"))
       case (Some(kind), Some(coordinates)) => Success(GeoJson(kind, coordinates))
       case _ => Failure(MalformedGeometry))
    case _ => Failure(MalformedGeometry)
  }

  /** `geojson_to_model`. */
  function GeoJsonToModel(text: Option<string>, decode: Decoder): (r: Result<Option<GeoJson>, GeoError>)
    ensures r == Success(None) <==> Falsy(text)
    ensures !Falsy(text) && r.Success? ==>
              decode(text.value).Some? && ValidateGeoJson(decode(text.value).value) == Success(r.value.value)
  {
    if Falsy(text) then Success(None)
    else
      match decode(text.value)
      case None => Failure(MalformedGeometry)
      case Some(v) =>
        match ValidateGeoJson(v)
        case Success(g) => Success(Some(g))
        case Failure(e) => Failure(e)
  }

  /** The text of a geometry of any of the six types comes back as that
      type with its coordinates untouched, whatever else the object holds. */
  lemma GeoJsonAcceptsTheSixTypes(text: string, decode: Decoder, kind: GeometryType,
                                  coordinates: Value, others: map<string, Value>)
    requires text != ""
    requires decode(text) == Some(Object(others["type" := Str(kind.Name())]["coordinates" := coordinates]))
    ensures GeoJsonToModel(Some(text), decode) == Success(Some(GeoJson(kind, coordinates)))
  {
    var v := decode(text).value;
    assert v.fields["type"] == Str(kind.Name());
    match kind
    case Point =>
    case LineString =>
    case Polygon =>
    case MultiPoint =>
    case MultiLineString =>
    case MultiPolygon =>
  }

  /** Any other `type` (a GeometryCollection, a Feature) is refused. */
  lemma GeoJsonRejectsOtherTypes(text: string, decode: Decoder, name: string, fields: map<string, Value>)
    requires text != ""
    requires decode(text) == Some(Object(fields))
    requires "type" in fields && fields["type"] == Str(name)
    requires forall t: GeometryType :: t.Name() != name
    ensures GeoJsonToModel(Some(text), decode) == Failure(MalformedGeometry)
  {
  }
}
