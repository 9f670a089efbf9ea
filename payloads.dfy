/**
 * The payload types the three live feeds deliver (the interfaces of `lib/dataService.ts`),
 * shared by the flood-risk route that builds them, the refresh manager that stores them and
 * the map that draws them. Numbers are `real`; the floating-point format is not modelled.
 */
module Payloads {
  import opened Wrappers

  /** The risk tier of a zone: `'high' | 'medium' | 'low'`. */
  datatype RiskTier = High | Medium | Low {
    /** The string the tier is written as in JSON and in map filters. */
    function Name(): string {
      match this
      case High => "high"
      case Medium => "medium"
      case Low => "low"
    }
  }

  /** A `[number, number]` position, longitude first as MapLibre and GeoJSON expect. */
  datatype LngLat = LngLat(lng: real, lat: real)

  /** A flood-risk zone; `coordinates` is the ring of `[lng, lat]` vertices (`number[][]`). */
  datatype FloodRiskZone = FloodRiskZone(
    id: string, risk: RiskTier, name: string, waterLevel: string, coordinates: seq<seq<real>>)

  datatype HeatmapPoint = HeatmapPoint(coordinates: LngLat, intensity: real)

  datatype CriticalAlert = CriticalAlert(coordinates: LngLat, message: string)

  /** `criticalAlert` is optional in the interface. */
  datatype FloodRiskPayload = FloodRiskPayload(
    zones: seq<FloodRiskZone>, heatmapPoints: seq<HeatmapPoint>, criticalAlert: Option<CriticalAlert>)

  datatype WeatherModelPayload = WeatherModelPayload(
    temperature: real, humidity: real, precipitation: real, windSpeed: real, pressure: real,
    condition: string)

  datatype CommunityUpdate = CommunityUpdate(
    id: string, district: string, severity: string, title: string, message: string,
    time: string, status: string)

  datatype CommunityUpdatesPayload = CommunityUpdatesPayload(updates: seq<CommunityUpdate>)
}
