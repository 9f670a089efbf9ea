/**
 * `GET /api/location/flood-risk` (`app/api/location/flood-risk/route.ts`): three rectangular
 * risk zones, five heatmap points and a critical alert, all placed around the requested
 * coordinate. Coordinates are exact `real`s; `parseFloat` itself is not modelled: a query
 * parameter arrives already parsed, with `None` standing for `NaN`.
 */
module FloodRiskRoute {
  import opened Wrappers
  import opened Payloads
  import opened ResponseHandler

  /** One query parameter: missing, or present with what `parseFloat` made of it. */
  datatype QueryParam = Absent | Present(parsed: Option<real>)

  const DefaultLat: real := 28.6139
  const DefaultLng: real := 77.209

  /** `parseFloat(searchParams.get(name) ?? fallback)`: `None` is `NaN`. */
  function ReadCoordinate(p: QueryParam, fallback: real): (r: Option<real>)
    ensures p.Absent? ==> r == Some(fallback)
    ensures p.Present? ==> r == p.parsed
  {
    match p
    case Absent => Some(fallback)
    case Present(v) => v
  }

  /** `offsetCoord`: moves `coord` by `km / 111` degrees away from zero. */
  function OffsetCoord(coord: real, km: real): (r: real)
    ensures coord >= 0.0 ==> r == coord + km / 111.0
    ensures coord < 0.0 ==> r == coord - km / 111.0
  {
    coord + (km / 111.0) * (if coord >= 0.0 then 1.0 else -1.0)
  }

  /** Offsetting back undoes an offset that stays on the same side of zero. */
  lemma OffsetRoundTrip(coord: real, km: real)
    requires (coord >= 0.0) == (OffsetCoord(coord, km) >= 0.0)
    ensures OffsetCoord(OffsetCoord(coord, km), -km) == coord
  {
  }

  /** One `[lng, lat]` vertex offset by `dx` km east-ish and `dy` km north-ish. */
  function Vertex(lng: real, lat: real, dx: real, dy: real): seq<real> {
    [OffsetCoord(lng, dx), OffsetCoord(lat, dy)]
  }

  /** The closed rectangle with corners offset by `x0..x1` and `y0..y1`, listed as the route lists it. */
  function Rectangle(lng: real, lat: real, x0: real, x1: real, y0: real, y1: real): seq<seq<real>> {
    [Vertex(lng, lat, x0, y0), Vertex(lng, lat, x1, y0), Vertex(lng, lat, x1, y1),
     Vertex(lng, lat, x0, y1), Vertex(lng, lat, x0, y0)]
  }

  function Zones(lat: real, lng: real): seq<FloodRiskZone> {
    [ FloodRiskZone("zone-1", High, "North District Hub", "4.2m", Rectangle(lng, lat, -1.5, 0.5, -0.7, 0.3)),
      FloodRiskZone("zone-2", Medium, "Eastern Corridor", "2.1m", Rectangle(lng, lat, 0.6, 1.8, -0.4, 0.5)),
      FloodRiskZone("zone-3", Low, "South Safe Zone", "0.8m", Rectangle(lng, lat, -1.2, -0.2, -2.0, -1.2)) ]
  }

  function HeatmapPoints(lat: real, lng: real): seq<HeatmapPoint> {
    [ HeatmapPoint(LngLat(OffsetCoord(lng, -0.7), OffsetCoord(lat, -0.2)), 0.9),
      HeatmapPoint(LngLat(lng, lat), 1.0),
      HeatmapPoint(LngLat(OffsetCoord(lng, 0.2), OffsetCoord(lat, -0.4)), 0.85),
      HeatmapPoint(LngLat(OffsetCoord(lng, 0.8), OffsetCoord(lat, 0.2)), 0.6),
      HeatmapPoint(LngLat(OffsetCoord(lng, -0.9), OffsetCoord(lat, -1.0)), 0.3) ]
  }

  const CriticalMessage: string := "Flood Zone Alpha · 4.2m · Evacuate"

  function Alert(lat: real, lng: real): CriticalAlert {
    CriticalAlert(LngLat(OffsetCoord(lng, 0.1), OffsetCoord(lat, -0.3)), CriticalMessage)
  }

  /** The route's answer: the bare 400 body it writes itself, or a `sendSuccess` envelope. */
  datatype FloodRiskResponse =
    | InvalidCoordinates(status: int, success: bool, message: string)
    | Answered(response: Response<FloodRiskPayload>)

  /** `GET`: validate the coordinates, then build the snapshot around them. */
  function Get(lat: QueryParam, lng: QueryParam, timestamp: string): (r: FloodRiskResponse)
    ensures ReadCoordinate(lat, DefaultLat).None? || ReadCoordinate(lng, DefaultLng).None?
      <==> r == InvalidCoordinates(400, false, "Invalid lat or lng")
  {
    match (ReadCoordinate(lat, DefaultLat), ReadCoordinate(lng, DefaultLng))
    case (Some(la), Some(ln)) =>
      Answered(SendSuccess(timestamp, Some(FloodRiskPayload(Zones(la, ln), HeatmapPoints(la, ln), Some(Alert(la, ln))))))
    case _ => InvalidCoordinates(400, false, "Invalid lat or lng")
  }

  /** A ring of at least four vertices whose last vertex repeats its first. */
  predicate ClosedRing(ring: seq<seq<real>>) {
    |ring| >= 4 && ring[0] == ring[|ring| - 1]
  }

  /** The success payload of a valid request at `(la, ln)`, the coordinates actually used. */
  lemma {:induction false} SnapshotShape(lat: QueryParam, lng: QueryParam, timestamp: string, la: real, ln: real)
    requires ReadCoordinate(lat, DefaultLat) == Some(la) && ReadCoordinate(lng, DefaultLng) == Some(ln)
    ensures var r := Get(lat, lng, timestamp);
      && r.Answered? && r.response.status == 200 && r.response.body.Success()
      && r.response.body.message == "Success" && r.response.body.data.Some?
      && var p := r.response.body.data.value;
      // three zones, zone-1..zone-3, in the tiers high, medium, low
      && |p.zones| == 3
      && p.zones[0].id == "zone-1" && p.zones[1].id == "zone-2" && p.zones[2].id == "zone-3"
      && p.zones[0].risk == High && p.zones[1].risk == Medium && p.zones[2].risk == Low
      // every ring has five [lng, lat] vertices and is closed
      && (forall k | 0 <= k < 3 :: |p.zones[k].coordinates| == 5 && ClosedRing(p.zones[k].coordinates)
            && forall v | 0 <= v < 5 :: |p.zones[k].coordinates[v]| == 2)
      // five heatmap points, the second exactly at the request with full intensity
      && |p.heatmapPoints| == 5
      && p.heatmapPoints[1] == HeatmapPoint(LngLat(ln, la), 1.0)
      && (forall k | 0 <= k < 5 :: 0.0 <= p.heatmapPoints[k].intensity <= 1.0)
      // the critical alert is always there
      && p.criticalAlert.Some? && p.criticalAlert.value.message == CriticalMessage
  {
    var zs := Zones(la, ln);
    forall k | 0 <= k < 3
      ensures |zs[k].coordinates| == 5 && ClosedRing(zs[k].coordinates)
      ensures forall v | 0 <= v < 5 :: |zs[k].coordinates[v]| == 2
    {
    }
  }

  /** With no query parameters the snapshot is built around New Delhi, (28.6139, 77.209). */
  lemma DefaultCenter(timestamp: string)
    ensures var r := Get(Absent, Absent, timestamp);
      r.Answered? && r.response.body.data.Some?
      && r.response.body.data.value.heatmapPoints[1].coordinates == LngLat(77.209, 28.6139)
  {
  }

  /** Each zone ring is an axis-aligned rectangle: vertices share longitudes and latitudes pairwise. */
  lemma RingsAreRectangles(la: real, ln: real)
    ensures forall k | 0 <= k < 3 ::
      var c := Zones(la, ln)[k].coordinates;
      c[0][0] == c[3][0] && c[1][0] == c[2][0] && c[0][1] == c[1][1] && c[2][1] == c[3][1]
  {
  }
}
