/**
 * The flood-risk map component (`components/maps/AdvancedFloodRiskMap.tsx`).
 *
 * The GeoJSON converters and the filter builder are pure functions. The component's refs and
 * state are the fields of a `View`, and each thing that can happen to the component (the
 * library import settling, the map's `load` event, an effect re-running, unmounting) is a
 * function from the view before to the view after. The MapLibre engine is not modelled:
 * every call the component makes on it is appended to an operation log, and the objects the
 * engine holds are the ones the log has created and not yet removed. Each engine object is
 * named by a handle that records its kind (map, popup, user marker, critical marker) and a
 * number that is never reused.
 */
module FloodRiskMap {
  import opened Wrappers
  import opened Payloads

  // ---------------------------------------------------------------------------------------
  // GeoJSON conversion and the risk filter
  // ---------------------------------------------------------------------------------------

  /** The `properties` of a zone Feature. */
  datatype ZoneProperties = ZoneProperties(risk: string, name: string, waterLevel: string)

  /** A Polygon Feature of the `flood-risk` source; `polygon` is the Polygon's list of rings. */
  datatype ZoneFeature = ZoneFeature(id: string, properties: ZoneProperties, polygon: seq<seq<seq<real>>>)

  /** A Point Feature of the `heatmap-points` source. */
  datatype PointFeature = PointFeature(position: LngLat, intensity: real)

  function ZoneToFeature(z: FloodRiskZone): (f: ZoneFeature)
    ensures f.id == z.id && f.polygon == [z.coordinates]
    ensures f.properties == ZoneProperties(z.risk.Name(), z.name, z.waterLevel)
  {
    ZoneFeature(z.id, ZoneProperties(z.risk.Name(), z.name, z.waterLevel), [z.coordinates])
  }

  /** `zonesToGeoJSON`: one Feature per zone, in order. */
  function ZonesToGeoJSON(zones: seq<FloodRiskZone>): (fs: seq<ZoneFeature>)
    ensures |fs| == |zones|
    ensures forall i | 0 <= i < |zones| :: fs[i] == ZoneToFeature(zones[i])
  {
    seq(|zones|, i requires 0 <= i < |zones| => ZoneToFeature(zones[i]))
  }

  /** Reads a tier back from the string a Feature carries. */
  function TierFromName(s: string): (r: Option<RiskTier>)
    ensures r.Some? ==> r.value.Name() == s
  {
    if s == "high" then Some(High)
    else if s == "medium" then Some(Medium)
    else if s == "low" then Some(Low)
    else None
  }

  /** Reads a zone back from a Feature with exactly one ring and a known tier. */
  function FeatureToZone(f: ZoneFeature): (r: Option<FloodRiskZone>)
    ensures r.Some? ==> ZoneToFeature(r.value) == f
  {
    match TierFromName(f.properties.risk)
    case Some(t) =>
      if |f.polygon| == 1
      then Some(FloodRiskZone(f.id, t, f.properties.name, f.properties.waterLevel, f.polygon[0]))
      else None
    case None => None
  }

  /** Nothing of a zone is lost in its Feature: every Feature reads back as the zone it came from. */
  lemma ZonesRoundTrip(zones: seq<FloodRiskZone>)
    ensures forall i | 0 <= i < |zones| :: FeatureToZone(ZonesToGeoJSON(zones)[i]) == Some(zones[i])
  {
    forall i | 0 <= i < |zones|
      ensures FeatureToZone(ZonesToGeoJSON(zones)[i]) == Some(zones[i])
    {
      var z := zones[i];
      assert TierFromName(z.risk.Name()) == Some(z.risk);
    }
  }

  /** `heatmapToGeoJSON`: one Point Feature per point, in order. */
  function HeatmapToGeoJSON(points: seq<HeatmapPoint>): (fs: seq<PointFeature>)
    ensures |fs| == |points|
    ensures forall i | 0 <= i < |points| :: fs[i].position == points[i].coordinates && fs[i].intensity == points[i].intensity
  {
    seq(|points|, i requires 0 <= i < |points| => PointFeature(points[i].coordinates, points[i].intensity))
  }

  function FeatureToPoint(f: PointFeature): HeatmapPoint {
    HeatmapPoint(f.position, f.intensity)
  }

  /** The heatmap points can be read back from their Features. */
  lemma HeatmapRoundTrip(points: seq<HeatmapPoint>)
    ensures seq(|points|, i requires 0 <= i < |points| => FeatureToPoint(HeatmapToGeoJSON(points)[i])) == points
  {
  }

  /** The filter buttons: `'all' | 'high' | 'medium' | 'low'`. */
  datatype RiskFilter = ShowAll | Only(tier: RiskTier)

  /** The MapLibre expression `['==', ['get', 'risk'], value]`. */
  datatype Filter = RiskEquals(value: string)

  /** `getFilter`: no filter for 'all', otherwise equality of the `risk` property with the tier. */
  function GetFilter(f: RiskFilter): (r: Option<Filter>)
    ensures f.ShowAll? <==> r.None?
    ensures f.Only? ==> r == Some(RiskEquals(f.tier.Name()))
  {
    match f
    case ShowAll => None
    case Only(t) => Some(RiskEquals(t.Name()))
  }

  /** How the engine applies a layer filter to one Feature. */
  predicate Shown(filter: Option<Filter>, f: ZoneFeature) {
    filter.None? || f.properties.risk == filter.value.value
  }

  /** The filter for a button shows exactly the zones of that button's tier, or all of them. */
  lemma FilterSelectsTier(zones: seq<FloodRiskZone>, rf: RiskFilter)
    ensures forall i | 0 <= i < |zones| ::
      Shown(GetFilter(rf), ZonesToGeoJSON(zones)[i]) <==> (rf.ShowAll? || zones[i].risk == rf.tier)
  {
    forall i | 0 <= i < |zones| && rf.Only? && Shown(GetFilter(rf), ZonesToGeoJSON(zones)[i])
      ensures zones[i].risk == rf.tier
    {
      assert TierFromName(zones[i].risk.Name()) == Some(zones[i].risk);
      assert TierFromName(rf.tier.Name()) == Some(rf.tier);
    }
  }

  // ---------------------------------------------------------------------------------------
  // The engine as an operation log
  // ---------------------------------------------------------------------------------------

  datatype Kind = MapObject | PopupObject | UserMarkerObject | CriticalMarkerObject

  datatype Handle = Handle(kind: Kind, id: nat)

  /** One call the component makes on the engine. */
  datatype EngineOp =
    | Create(h: Handle)
    | Remove(h: Handle)
    | EaseTo(target: Handle, center: LngLat)
    | SetLngLat(target: Handle, position: LngLat)
    | SetZoneData(target: Handle, zones: seq<ZoneFeature>)
    | SetHeatmapData(target: Handle, points: seq<PointFeature>)
    | SetLayerFilter(target: Handle, filter: Option<Filter>)

  /** What the engine holds: its live objects by kind, how often the camera eased, and the next unused handle number. */
  datatype Engine = Engine(
    maps: set<Handle>, popups: set<Handle>, userMarkers: set<Handle>, criticalMarkers: set<Handle>,
    eases: nat, nextFree: nat)
  {
    function Of(k: Kind): set<Handle> {
      match k
      case MapObject => maps
      case PopupObject => popups
      case UserMarkerObject => userMarkers
      case CriticalMarkerObject => criticalMarkers
    }

    function Added(h: Handle): Engine {
      match h.kind
      case MapObject => this.(maps := maps + {h})
      case PopupObject => this.(popups := popups + {h})
      case UserMarkerObject => this.(userMarkers := userMarkers + {h})
      case CriticalMarkerObject => this.(criticalMarkers := criticalMarkers + {h})
    }

    function Removed(h: Handle): Engine {
      match h.kind
      case MapObject => this.(maps := maps - {h})
      case PopupObject => this.(popups := popups - {h})
      case UserMarkerObject => this.(userMarkers := userMarkers - {h})
      case CriticalMarkerObject => this.(criticalMarkers := criticalMarkers - {h})
    }

    /** The engine after one more operation. */
    function Apply(op: EngineOp): Engine {
      match op
      case Create(h) => Added(h).(nextFree := if h.id >= nextFree then h.id + 1 else nextFree)
      case Remove(h) => Removed(h)
      case EaseTo(_, _) => this.(eases := eases + 1)
      case _ => this
    }
  }

  /** The engine after running `log` from `e`. */
  function ReplayFrom(e: Engine, log: seq<EngineOp>): Engine
    decreases |log|
  {
    if log == [] then e else ReplayFrom(e.Apply(log[0]), log[1..])
  }

  /** The engine after `log`, starting from nothing. */
  function Replay(log: seq<EngineOp>): Engine {
    ReplayFrom(Engine({}, {}, {}, {}, 0, 0), log)
  }

  lemma {:induction false} ReplayFromSnoc(e: Engine, log: seq<EngineOp>, op: EngineOp)
    ensures ReplayFrom(e, log + [op]) == ReplayFrom(e, log).Apply(op)
    decreases |log|
  {
    if log != [] {
      assert (log + [op])[1..] == log[1..] + [op];
      ReplayFromSnoc(e.Apply(log[0]), log[1..], op);
    }
  }

  /** The objects of kind `k` the engine holds after `log`: created and not removed since. */
  function LiveOf(log: seq<EngineOp>, k: Kind): set<Handle> {
    Replay(log).Of(k)
  }

  /** Every handle created is below `nextFree`, so a handle numbered from it names a new object. */
  lemma {:induction false} NextFreeBounds(log: seq<EngineOp>)
    ensures forall i | 0 <= i < |log| :: log[i].Create? ==> log[i].h.id < Replay(log).nextFree
    decreases |log|
  {
    if log != [] {
      var init := log[..|log| - 1];
      NextFreeBounds(init);
      assert log == init + [log[|log| - 1]];
      Appended(init, log[|log| - 1]);
    }
  }

  lemma Appended(log: seq<EngineOp>, op: EngineOp)
    ensures Replay(log + [op]) == Replay(log).Apply(op)
  {
    ReplayFromSnoc(Engine({}, {}, {}, {}, 0, 0), log, op);
  }

  function AsSet(h: Option<Handle>): set<Handle> {
    if h.Some? then {h.value} else {}
  }

  /** The removal a `ref.current?.remove()` performs. */
  function RemoveOp(h: Option<Handle>): seq<EngineOp> {
    if h.Some? then [Remove(h.value)] else []
  }

  datatype MapStatus = Loading | Ready | Error

  // ---------------------------------------------------------------------------------------
  // The component: its refs and state, and what each event does to them
  // ---------------------------------------------------------------------------------------

  /**
   * One moment of the component. `mapRef`, `popupRef`, `userMarkerRef`, `criticalMarkerRef`,
   * `hasCentered` and `isInitialized` are its refs, `libLoaded` stands for
   * `maplibreglRef.current !== null`, `status` and `riskFilter` are its state. `importPending`,
   * `pendingMap`, `cancelled`, `initialCenter` and `initialUser` belong to the running init
   * effect: the library import has not settled, the map it constructed has not loaded, the
   * run was cancelled, and the positions it captured. `criticalArmed` says that the last run
   * of the critical-marker effect returned its teardown. `log` is every call made on the
   * engine so far and `nextId` the number the next created object gets.
   */
  datatype View = View(
    mapRef: Option<Handle>, pendingMap: Option<Handle>, importPending: bool, libLoaded: bool,
    popupRef: Option<Handle>, userMarkerRef: Option<Handle>, criticalMarkerRef: Option<Handle>,
    hasCentered: bool, isInitialized: bool, cancelled: bool, status: MapStatus,
    riskFilter: RiskFilter, criticalArmed: bool, initialCenter: LngLat, initialUser: LngLat,
    log: seq<EngineOp>, nextId: nat)

  /** The component mounts: every ref is empty, status is 'loading', and the init effect starts the import. */
  function Mounted(center: LngLat, userPosition: LngLat): View {
    View(None, None, true, false, None, None, None, false, false, false, Loading, ShowAll, false,
      center, userPosition, [], 0)
  }

  /**
   * The library import settles. A failure sets 'error' unless the run was cancelled; a success
   * after cancellation or initialisation does nothing; otherwise the library is kept and the
   * map is constructed.
   */
  function ImportSettled(v: View, ok: bool): View
    requires v.importPending
  {
    if !ok then v.(importPending := false, status := if v.cancelled then v.status else Error)
    else if v.cancelled || v.isInitialized then v.(importPending := false)
    else
      var m := Handle(MapObject, v.nextId);
      v.(importPending := false, libLoaded := true, pendingMap := Some(m),
         log := v.log + [Create(m)], nextId := v.nextId + 1)
  }

  /**
   * The map's `load` event. A cancelled run returns at once, leaving the map constructed.
   * Otherwise: ease the camera unless it already has, create the hover popup and the user
   * marker at the captured position, publish the map in `mapRef`, and become 'ready'.
   */
  function OnLoad(v: View): View
    requires v.pendingMap.Some?
  {
    var m := v.pendingMap.value;
    if v.cancelled then v.(pendingMap := None)
    else
      var ease := if v.hasCentered then [] else [EaseTo(m, v.initialCenter)];
      var p := Handle(PopupObject, v.nextId);
      var u := Handle(UserMarkerObject, v.nextId + 1);
      v.(pendingMap := None, hasCentered := true,
         log := v.log + ease + [Create(p), Create(u), SetLngLat(u, v.initialUser)], nextId := v.nextId + 2,
         popupRef := Some(p), userMarkerRef := Some(u), mapRef := Some(m), isInitialized := true, status := Ready)
  }

  /** `cleanup`: remove the popup, the user marker, the critical marker and the map, in that order, and reset the flags. */
  function Cleanup(v: View): View {
    v.(log := v.log + RemoveOp(v.popupRef) + RemoveOp(v.userMarkerRef) + RemoveOp(v.criticalMarkerRef) + RemoveOp(v.mapRef),
       popupRef := None, userMarkerRef := None, criticalMarkerRef := None, mapRef := None,
       libLoaded := false, isInitialized := false, hasCentered := false)
  }

  /** The critical-marker effect's teardown, if its last run returned one: the marker it placed is removed. */
  function CriticalTeardown(v: View): View {
    if v.criticalArmed
    then v.(log := v.log + RemoveOp(v.criticalMarkerRef), criticalMarkerRef := None, criticalArmed := false)
    else v
  }

  /**
   * The component unmounts. The init effect's cleanup runs first: it cancels the run, calls
   * the teardown `initMap` returned (itself `cleanup`) and then `cleanup`. The
   * critical-marker effect's teardown follows if its last run returned one.
   */
  function Unmount(v: View): View {
    CriticalTeardown(Cleanup(Cleanup(v.(cancelled := true))))
  }

  /** The map exists and status is 'ready': the gate every synchronising effect checks first. */
  predicate ReadyMap(v: View) {
    v.mapRef.Some? && v.status == Ready
  }

  /** The layer-data effect: with a ready map and a payload, replace both sources' data. */
  function SyncLayers(v: View, data: Option<FloodRiskPayload>): View {
    if ReadyMap(v) && data.Some?
    then v.(log := v.log + [SetZoneData(v.mapRef.value, ZonesToGeoJSON(data.value.zones)),
                            SetHeatmapData(v.mapRef.value, HeatmapToGeoJSON(data.value.heatmapPoints))])
    else v
  }

  /** The filter effect: with a ready map, apply `getFilter(riskFilter)` to the zone layer. */
  function SyncFilter(v: View): View {
    if ReadyMap(v) then v.(log := v.log + [SetLayerFilter(v.mapRef.value, GetFilter(v.riskFilter))]) else v
  }

  /** A filter button is pressed: `setRiskFilter`, after which the filter effect re-runs. */
  function SelectFilter(v: View, f: RiskFilter): View {
    SyncFilter(v.(riskFilter := f))
  }

  /** The user-position effect: with a ready map and the library, move the existing user marker. */
  function SyncUserPosition(v: View, position: LngLat): View {
    if ReadyMap(v) && v.libLoaded && v.userMarkerRef.Some?
    then v.(log := v.log + [SetLngLat(v.userMarkerRef.value, position)])
    else v
  }

  /**
   * The critical-marker effect re-runs: the previous run's teardown first, if it returned one;
   * then, with a ready map, an alert and the library, remove any marker still held and create
   * a new one at the alert, returning a teardown.
   */
  function SyncCriticalMarker(v: View, alert: Option<CriticalAlert>): View {
    var w := CriticalTeardown(v);
    if ReadyMap(w) && alert.Some? && w.libLoaded then
      var c := Handle(CriticalMarkerObject, w.nextId);
      w.(log := w.log + RemoveOp(w.criticalMarkerRef) + [Create(c), SetLngLat(c, alert.value.coordinates)],
         nextId := w.nextId + 1, criticalMarkerRef := Some(c), criticalArmed := true)
    else w
  }

  /** What can happen to a mounted component, in any order the browser and React produce. */
  datatype Event =
    | ImportDone(ok: bool)
    | LoadFired
    | Unmounted
    | LayersRun(data: Option<FloodRiskPayload>)
    | FilterRun
    | FilterPicked(filter: RiskFilter)
    | UserPositionRun(position: LngLat)
    | CriticalRun(alert: Option<CriticalAlert>)

  /** The import settles once, and only a constructed map fires `load`. */
  predicate Enabled(v: View, ev: Event) {
    match ev
    case ImportDone(_) => v.importPending
    case LoadFired => v.pendingMap.Some?
    case _ => true
  }

  function Step(v: View, ev: Event): View
    requires Enabled(v, ev)
  {
    match ev
    case ImportDone(ok) => ImportSettled(v, ok)
    case LoadFired => OnLoad(v)
    case Unmounted => Unmount(v)
    case LayersRun(data) => SyncLayers(v, data)
    case FilterRun => SyncFilter(v)
    case FilterPicked(f) => SelectFilter(v, f)
    case UserPositionRun(position) => SyncUserPosition(v, position)
    case CriticalRun(alert) => SyncCriticalMarker(v, alert)
  }

  /** A sequence of events from `v`; an event that cannot happen at its point is skipped. */
  function Run(v: View, evs: seq<Event>): View
    decreases |evs|
  {
    if evs == [] then v
    else Run(if Enabled(v, evs[0]) then Step(v, evs[0]) else v, evs[1..])
  }

  // ---------------------------------------------------------------------------------------
  // The invariant: the refs track exactly what the engine holds
  // ---------------------------------------------------------------------------------------

  predicate Inv(v: View) {
    var e := Replay(v.log);
    // a handle numbered from `nextId` names a new object
    && e.nextFree <= v.nextId
    // the engine holds exactly the popup and markers the refs name
    && e.popups == AsSet(v.popupRef) && (v.popupRef.Some? ==> v.popupRef.value.kind == PopupObject)
    && e.userMarkers == AsSet(v.userMarkerRef) && (v.userMarkerRef.Some? ==> v.userMarkerRef.value.kind == UserMarkerObject)
    && e.criticalMarkers == AsSet(v.criticalMarkerRef)
    && (v.criticalMarkerRef.Some? ==> v.criticalMarkerRef.value.kind == CriticalMarkerObject)
    // the published map, or the one still loading, is the engine's only map
    && (v.mapRef.Some? ==> v.mapRef.value.kind == MapObject && e.maps == {v.mapRef.value} && v.isInitialized)
    && (v.pendingMap.Some? ==> v.pendingMap.value.kind == MapObject && e.maps == {v.pendingMap.value} && !v.isInitialized)
    && (!v.isInitialized ==> v.popupRef.None? && v.userMarkerRef.None?)
    && (v.importPending ==> v.pendingMap.None? && !v.isInitialized && e.maps == {})
    // a map left behind by an early unmount is still the only one
    && |e.maps| <= 1
    // the camera eases at most once, and only after the map has loaded
    && e.eases <= 1
    && (v.importPending || v.pendingMap.Some? ==> e.eases == 0)
  }

  /** Appending one removal (or none) to the log. */
  lemma RemoveOpReplay(log: seq<EngineOp>, h: Option<Handle>)
    ensures h.Some? ==> Replay(log + RemoveOp(h)) == Replay(log).Apply(Remove(h.value))
    ensures h.None? ==> Replay(log + RemoveOp(h)) == Replay(log)
  {
    if h.Some? {
      Appended(log, Remove(h.value));
    } else {
      assert log + RemoveOp(h) == log;
    }
  }

  lemma MountedInv(center: LngLat, userPosition: LngLat)
    ensures Inv(Mounted(center, userPosition))
  {
  }

  lemma ImportSettledInv(v: View, ok: bool)
    requires Inv(v) && v.importPending
    ensures Inv(ImportSettled(v, ok))
  {
    if ok && !v.cancelled && !v.isInitialized {
      Appended(v.log, Create(Handle(MapObject, v.nextId)));
    }
  }

  /** The engine after the load handler's calls: one popup and one user marker more, and an ease unless centred. */
  lemma OnLoadReplay(log: seq<EngineOp>, m: Handle, centered: bool, center: LngLat, p: Handle, u: Handle, position: LngLat)
    requires p.kind == PopupObject && u.kind == UserMarkerObject
    requires Replay(log).nextFree <= p.id < u.id
    ensures var ease := if centered then [] else [EaseTo(m, center)];
      var e := Replay(log + ease + [Create(p), Create(u), SetLngLat(u, position)]);
      var e0 := Replay(log);
      && e.maps == e0.maps && e.criticalMarkers == e0.criticalMarkers
      && e.popups == e0.popups + {p} && e.userMarkers == e0.userMarkers + {u}
      && e.eases == (if centered then e0.eases else e0.eases + 1)
      && e.nextFree <= u.id + 1
  {
    var ease := if centered then [] else [EaseTo(m, center)];
    var l0 := log + ease;
    if centered {
      assert l0 == log;
    } else {
      Appended(log, EaseTo(m, center));
    }
    Appended(l0, Create(p));
    Appended(l0 + [Create(p)], Create(u));
    Appended(l0 + [Create(p)] + [Create(u)], SetLngLat(u, position));
    assert l0 + [Create(p)] + [Create(u)] + [SetLngLat(u, position)]
      == log + ease + [Create(p), Create(u), SetLngLat(u, position)];
  }

  lemma OnLoadInv(v: View)
    requires Inv(v) && v.pendingMap.Some?
    ensures Inv(OnLoad(v))
  {
    if !v.cancelled {
      OnLoadReplay(v.log, v.pendingMap.value, v.hasCentered, v.initialCenter,
                   Handle(PopupObject, v.nextId), Handle(UserMarkerObject, v.nextId + 1), v.initialUser);
    }
  }

  lemma CleanupInv(v: View)
    requires Inv(v)
    ensures Inv(Cleanup(v))
  {
    var l1 := v.log + RemoveOp(v.popupRef);
    var l2 := l1 + RemoveOp(v.userMarkerRef);
    var l3 := l2 + RemoveOp(v.criticalMarkerRef);
    RemoveOpReplay(v.log, v.popupRef);
    RemoveOpReplay(l1, v.userMarkerRef);
    RemoveOpReplay(l2, v.criticalMarkerRef);
    RemoveOpReplay(l3, v.mapRef);
  }

  lemma UnmountInv(v: View)
    requires Inv(v)
    ensures Inv(Unmount(v))
  {
    CleanupInv(v.(cancelled := true));
    CleanupInv(Cleanup(v.(cancelled := true)));
    var w := Cleanup(Cleanup(v.(cancelled := true)));
    RemoveOpReplay(w.log, w.criticalMarkerRef);
  }

  lemma CriticalTeardownInv(v: View)
    requires Inv(v)
    ensures Inv(CriticalTeardown(v))
  {
    RemoveOpReplay(v.log, v.criticalMarkerRef);
  }

  /** Placing a new marker on a view that keeps the invariant: the old one is removed, the new one created and moved. */
  lemma CriticalPlaceInv(w: View, alert: CriticalAlert)
    requires Inv(w) && ReadyMap(w) && w.libLoaded
    ensures var c := Handle(CriticalMarkerObject, w.nextId);
      Inv(w.(log := w.log + RemoveOp(w.criticalMarkerRef) + [Create(c), SetLngLat(c, alert.coordinates)],
             nextId := w.nextId + 1, criticalMarkerRef := Some(c), criticalArmed := true))
  {
    var c := Handle(CriticalMarkerObject, w.nextId);
    var l1 := w.log + RemoveOp(w.criticalMarkerRef);
    RemoveOpReplay(w.log, w.criticalMarkerRef);
    Appended(l1, Create(c));
    Appended(l1 + [Create(c)], SetLngLat(c, alert.coordinates));
    assert l1 + [Create(c)] + [SetLngLat(c, alert.coordinates)]
      == l1 + [Create(c), SetLngLat(c, alert.coordinates)];
    assert Replay(l1 + [Create(c), SetLngLat(c, alert.coordinates)]).maps == Replay(w.log).maps;
  }

  lemma SyncCriticalMarkerInv(v: View, alert: Option<CriticalAlert>)
    requires Inv(v)
    ensures Inv(SyncCriticalMarker(v, alert))
  {
    CriticalTeardownInv(v);
    var w := CriticalTeardown(v);
    if ReadyMap(w) && alert.Some? && w.libLoaded {
      CriticalPlaceInv(w, alert.value);
    }
  }

  /** A call that neither creates, removes nor moves the camera leaves the engine's objects as they were. */
  lemma PassiveCall(log: seq<EngineOp>, op: EngineOp)
    requires op.SetLngLat? || op.SetZoneData? || op.SetHeatmapData? || op.SetLayerFilter?
    ensures Replay(log + [op]) == Replay(log)
  {
    Appended(log, op);
  }

  lemma SyncLayersInv(v: View, data: Option<FloodRiskPayload>)
    requires Inv(v)
    ensures Inv(SyncLayers(v, data))
  {
    if ReadyMap(v) && data.Some? {
      var z := SetZoneData(v.mapRef.value, ZonesToGeoJSON(data.value.zones));
      var h := SetHeatmapData(v.mapRef.value, HeatmapToGeoJSON(data.value.heatmapPoints));
      PassiveCall(v.log, z);
      PassiveCall(v.log + [z], h);
      assert v.log + [z] + [h] == v.log + [z, h];
    }
  }

  lemma SyncFilterInv(v: View)
    requires Inv(v)
    ensures Inv(SyncFilter(v))
  {
    if ReadyMap(v) {
      PassiveCall(v.log, SetLayerFilter(v.mapRef.value, GetFilter(v.riskFilter)));
    }
  }

  lemma SyncUserPositionInv(v: View, position: LngLat)
    requires Inv(v)
    ensures Inv(SyncUserPosition(v, position))
  {
    if ReadyMap(v) && v.libLoaded && v.userMarkerRef.Some? {
      PassiveCall(v.log, SetLngLat(v.userMarkerRef.value, position));
    }
  }

  /** Every event keeps the refs in step with the engine. */
  lemma StepInv(v: View, ev: Event)
    requires Inv(v) && Enabled(v, ev)
    ensures Inv(Step(v, ev))
  {
    match ev
    case ImportDone(ok) => ImportSettledInv(v, ok);
    case LoadFired => OnLoadInv(v);
    case Unmounted => UnmountInv(v);
    case LayersRun(data) => SyncLayersInv(v, data);
    case FilterRun => SyncFilterInv(v);
    case FilterPicked(f) => SyncFilterInv(v.(riskFilter := f));
    case UserPositionRun(position) => SyncUserPositionInv(v, position);
    case CriticalRun(alert) => SyncCriticalMarkerInv(v, alert);
  }

  lemma {:induction false} RunInv(v: View, evs: seq<Event>)
    requires Inv(v)
    ensures Inv(Run(v, evs))
    decreases |evs|
  {
    if evs != [] {
      var w := if Enabled(v, evs[0]) then Step(v, evs[0]) else v;
      if Enabled(v, evs[0]) {
        StepInv(v, evs[0]);
      }
      RunInv(w, evs[1..]);
    }
  }

  // ---------------------------------------------------------------------------------------
  // Properties of the component
  // ---------------------------------------------------------------------------------------

  /**
   * However the events interleave after mounting, the engine holds at most one critical
   * marker, one user marker, one popup and one map, and the camera has eased at most once.
   */
  lemma AtMostOneOfEach(center: LngLat, userPosition: LngLat, evs: seq<Event>)
    ensures var e := Replay(Run(Mounted(center, userPosition), evs).log);
      |e.maps| <= 1 && |e.criticalMarkers| <= 1 && |e.userMarkers| <= 1 && |e.popups| <= 1 && e.eases <= 1
  {
    MountedInv(center, userPosition);
    RunInv(Mounted(center, userPosition), evs);
  }

  /**
   * `cleanup` removes the popup, the user marker, the critical marker and the map, in that
   * order; afterwards the engine holds none of them, except a map that is still loading,
   * which no ref reaches yet.
   */
  lemma CleanupReleasesAll(v: View)
    requires Inv(v)
    ensures var w := Cleanup(v);
      && w.log == v.log + RemoveOp(v.popupRef) + RemoveOp(v.userMarkerRef) + RemoveOp(v.criticalMarkerRef) + RemoveOp(v.mapRef)
      && w.popupRef.None? && w.userMarkerRef.None? && w.criticalMarkerRef.None? && w.mapRef.None?
      && !w.isInitialized && !w.hasCentered && !w.libLoaded
      && var e := Replay(w.log);
      && e.popups == {} && e.userMarkers == {} && e.criticalMarkers == {}
      && (v.pendingMap.None? ==> e.maps <= Replay(v.log).maps - AsSet(v.mapRef))
  {
    CleanupInv(v);
    var l1 := v.log + RemoveOp(v.popupRef);
    var l2 := l1 + RemoveOp(v.userMarkerRef);
    var l3 := l2 + RemoveOp(v.criticalMarkerRef);
    RemoveOpReplay(v.log, v.popupRef);
    RemoveOpReplay(l1, v.userMarkerRef);
    RemoveOpReplay(l2, v.criticalMarkerRef);
    RemoveOpReplay(l3, v.mapRef);
  }

  /** Running `cleanup` a second time, as unmounting does, changes nothing more. */
  lemma CleanupIdempotent(v: View)
    ensures Cleanup(Cleanup(v)) == Cleanup(v)
  {
    var w := Cleanup(v);
    assert w.log + RemoveOp(None) + RemoveOp(None) + RemoveOp(None) + RemoveOp(None) == w.log;
  }

  /** After unmounting a loaded map, the engine holds nothing the component created. */
  lemma UnmountReleasesAll(v: View)
    requires Inv(v) && v.pendingMap.None?
    ensures var e := Replay(Unmount(v).log);
      e.popups == {} && e.userMarkers == {} && e.criticalMarkers == {}
      && (v.mapRef.Some? ==> e.maps == {})
  {
    var c := v.(cancelled := true);
    CleanupReleasesAll(c);
    CleanupInv(c);
    CleanupIdempotent(c);
    var w := Cleanup(Cleanup(c));
    RemoveOpReplay(w.log, w.criticalMarkerRef);
  }

  /**
   * The synchronising effects do nothing until the map exists and status is 'ready';
   * the layer-data and critical-marker effects also need data.
   */
  lemma EffectsGatedOnReady(v: View, data: Option<FloodRiskPayload>, position: LngLat, alert: Option<CriticalAlert>)
    ensures !(ReadyMap(v) && data.Some?) <==> SyncLayers(v, data) == v
    ensures !ReadyMap(v) <==> SyncFilter(v) == v
    ensures !(ReadyMap(v) && v.libLoaded && v.userMarkerRef.Some?) <==> SyncUserPosition(v, position) == v
    ensures !v.criticalArmed && !(ReadyMap(v) && alert.Some? && v.libLoaded) ==> SyncCriticalMarker(v, alert) == v
  {
    if ReadyMap(v) && data.Some? {
      assert |SyncLayers(v, data).log| == |v.log| + 2;
    }
    if ReadyMap(v) {
      assert |SyncFilter(v).log| == |v.log| + 1;
    }
    if ReadyMap(v) && v.libLoaded && v.userMarkerRef.Some? {
      assert |SyncUserPosition(v, position).log| == |v.log| + 1;
    }
  }

  /** A position change moves the existing user marker and creates nothing: the engine's objects are unchanged. */
  lemma UserPositionMovesOnly(v: View, position: LngLat)
    ensures var w := SyncUserPosition(v, position);
      && w.userMarkerRef == v.userMarkerRef
      && Replay(w.log) == Replay(v.log)
      && (w != v ==> w.log == v.log + [SetLngLat(v.userMarkerRef.value, position)])
  {
    if ReadyMap(v) && v.libLoaded && v.userMarkerRef.Some? {
      PassiveCall(v.log, SetLngLat(v.userMarkerRef.value, position));
    }
  }

  /**
   * A new critical marker is created only after the one held before has been removed, and
   * the engine then holds exactly the new one.
   */
  lemma CriticalMarkerReplaced(v: View, alert: CriticalAlert)
    requires Inv(v) && ReadyMap(v) && v.libLoaded && v.criticalMarkerRef.Some?
    ensures var w := SyncCriticalMarker(v, Some(alert));
      var c := Handle(CriticalMarkerObject, v.nextId);
      && w.log == v.log + [Remove(v.criticalMarkerRef.value), Create(c), SetLngLat(c, alert.coordinates)]
      && Replay(w.log).criticalMarkers == {c} && w.criticalMarkerRef == Some(c)
  {
    SyncCriticalMarkerInv(v, Some(alert));
  }

  /**
   * The teardown half: when the effect re-runs after a run that placed a marker and the new
   * snapshot has no alert, the marker is removed and none is created, so the engine holds no
   * critical marker.
   */
  lemma CriticalMarkerTornDown(v: View)
    requires Inv(v) && v.criticalArmed
    ensures var w := SyncCriticalMarker(v, None);
      && w.log == v.log + RemoveOp(v.criticalMarkerRef)
      && w.criticalMarkerRef.None? && !w.criticalArmed
      && Replay(w.log).criticalMarkers == {}
  {
    SyncCriticalMarkerInv(v, None);
  }

  /** Status becomes 'ready' only in the load handler, and a failed import sets 'error' unless cancelled. */
  lemma ReadyOnlyOnLoad(v: View, ev: Event)
    requires Enabled(v, ev) && v.status != Ready
    ensures Step(v, ev).status == Ready ==> ev.LoadFired?
    ensures ev == ImportDone(false) ==> Step(v, ev).status == (if v.cancelled then v.status else Error)
  {
    match ev
    case ImportDone(ok) =>
    case LoadFired =>
    case Unmounted =>
    case LayersRun(data) =>
    case FilterRun =>
    case FilterPicked(f) =>
    case UserPositionRun(position) =>
    case CriticalRun(alert) =>
  }

  /**
   * Unmounting after the map is constructed but before it loads: `cleanup` only knows
   * `mapRef`, which is still null, and the load handler returns early on a cancelled run,
   * so the constructed map is never removed.
   */
  lemma UnmountBeforeLoadKeepsMap(center: LngLat, userPosition: LngLat)
    ensures var v := Run(Mounted(center, userPosition), [ImportDone(true), Unmounted, LoadFired]);
      |Replay(v.log).maps| == 1 && v.mapRef.None? && v.pendingMap.None? && v.status == Loading
  {
    var v0 := Mounted(center, userPosition);
    var v1 := ImportSettled(v0, true);
    var v2 := Unmount(v1);
    var v3 := OnLoad(v2);
    assert Run(v0, [ImportDone(true), Unmounted, LoadFired]) == v3 by {
      assert [ImportDone(true), Unmounted, LoadFired][1..] == [Unmounted, LoadFired];
      assert [Unmounted, LoadFired][1..] == [LoadFired];
    }
    MountedInv(center, userPosition);
    ImportSettledInv(v0, true);
    UnmountInv(v1);
    OnLoadInv(v2);
    assert v3.log == v2.log;
    assert Replay(v3.log).maps == {Handle(MapObject, 0)};
  }

  /** A filter pressed before the map is ready is applied when the filter effect re-runs on 'ready'. */
  lemma FilterBeforeReady(center: LngLat, userPosition: LngLat, t: RiskTier)
    ensures var v := OnLoad(ImportSettled(SelectFilter(Mounted(center, userPosition), Only(t)), true));
      SyncFilter(v).log == v.log + [SetLayerFilter(v.mapRef.value, Some(RiskEquals(t.Name())))]
  {
  }
}
