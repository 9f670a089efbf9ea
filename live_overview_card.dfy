/**
 * The landing page's live overview card (`components/live-overview-card.tsx`): a selector
 * over the default locations merged with the district names from `/api/districts`, and the
 * flood metrics of the selected location from the constant table of `lib/locationData.ts`.
 * The fetch is an oracle: `DistrictsSettled` receives the district names when the response
 * had `success` and an array `data`, and `None` otherwise (including a failed request).
 */
module LiveOverviewCard {
  import opened Wrappers

  const NorthernCorridor: string := "Northern Corridor"

  /** `DEFAULT_LOCATIONS`. */
  const DefaultLocations: seq<string> := [NorthernCorridor, "Lower Delta", "Harbor East", "Riverwalk"]

  predicate NoDuplicates(s: seq<string>) {
    forall i, j | 0 <= i < j < |s| :: s[i] != s[j]
  }

  /**
   * Appends to `seen` each name of `rest` not yet present, in order: the reference reading of
   * "the defaults followed by the names not already present, first occurrences only".
   */
  function AppendNew(seen: seq<string>, rest: seq<string>): (r: seq<string>)
    ensures |seen| <= |r| && r[..|seen|] == seen
    ensures NoDuplicates(seen) ==> NoDuplicates(r)
    ensures forall x :: x in r <==> x in seen || x in rest
    decreases |rest|
  {
    if rest == [] then seen
    else
      var next := if rest[0] in seen then seen else seen + [rest[0]];
      var r := AppendNew(next, rest[1..]);
      assert r[..|seen|] == next[..|seen|];
      r
  }

  /** `[...new Set(names)]`: the distinct names in the order of their first occurrence. */
  function Distinct(names: seq<string>): seq<string> {
    AppendNew([], names)
  }

  /** Deduplicating a concatenation is deduplicating the second part after the first. */
  lemma {:induction false} AppendNewConcat(seen: seq<string>, a: seq<string>, b: seq<string>)
    ensures AppendNew(seen, a + b) == AppendNew(AppendNew(seen, a), b)
    decreases |a|
  {
    if a != [] {
      assert (a + b)[0] == a[0] && (a + b)[1..] == a[1..] + b;
      var next := if a[0] in seen then seen else seen + [a[0]];
      AppendNewConcat(next, a[1..], b);
    } else {
      assert a + b == b;
    }
  }

  /** Names that are already distinct come through unchanged. */
  lemma {:induction false} AppendNewDistinct(seen: seq<string>, a: seq<string>)
    requires NoDuplicates(seen + a)
    ensures AppendNew(seen, a) == seen + a
    decreases |a|
  {
    if a != [] {
      assert a[0] == (seen + a)[|seen|];
      assert forall k | 0 <= k < |seen| :: seen[k] == (seen + a)[k] != (seen + a)[|seen|];
      assert seen + a == (seen + [a[0]]) + a[1..];
      AppendNewDistinct(seen + [a[0]], a[1..]);
    }
  }

  /** `[...new Set([...DEFAULT_LOCATIONS, ...dbNames])]`. */
  function Merge(dbNames: seq<string>): seq<string> {
    Distinct(DefaultLocations + dbNames)
  }

  /**
   * The merged list is the four defaults followed by the district names not already present,
   * first occurrences only; it has no duplicates, holds every default and every district name,
   * and starts with "Northern Corridor".
   */
  lemma MergeShape(dbNames: seq<string>)
    ensures Merge(dbNames) == AppendNew(DefaultLocations, dbNames)
    ensures |Merge(dbNames)| >= 4 && Merge(dbNames)[..4] == DefaultLocations
    ensures NoDuplicates(Merge(dbNames))
    ensures forall x :: x in Merge(dbNames) <==> x in DefaultLocations || x in dbNames
    ensures Merge(dbNames)[0] == NorthernCorridor
  {
    AppendNewConcat([], DefaultLocations, dbNames);
    AppendNewDistinct([], DefaultLocations);
    assert [] + DefaultLocations == DefaultLocations;
  }

  datatype MetricsStatus = Elevated | Critical | Normal | Safe

  datatype SurgeWindow = SurgeWindow(start: string, end: string, action: string)

  datatype LocationMetrics = LocationMetrics(
    rainIntensity: string, riverHeight: string, evacuationZones: string, sensorsOnline: string,
    status: MetricsStatus, surgeWindow: Option<SurgeWindow>)

  /** `LOCATION_METRICS`. */
  const LocationMetricsTable: map<string, LocationMetrics> := map[
    NorthernCorridor := LocationMetrics("18 mm/hr", "4.8 m", "6 active", "128 of 132", Elevated,
      Some(SurgeWindow("19:20", "20:05", "Prepare mobile barriers and re-route traffic away from Zone D."))),
    "Shamli" := LocationMetrics("12 mm/hr", "3.2 m", "2 active", "24 of 28", Normal,
      Some(SurgeWindow("20:00", "21:30", "Monitor water levels. Shelters on standby."))),
    "Lower Delta" := LocationMetrics("24 mm/hr", "5.6 m", "8 active", "94 of 98", Critical,
      Some(SurgeWindow("18:45", "19:50", "Evacuate Zone 4. Deploy mobile barriers at checkpoints."))),
    "Harbor East" := LocationMetrics("8 mm/hr", "2.1 m", "1 active", "42 of 44", Safe, None),
    "Riverwalk" := LocationMetrics("15 mm/hr", "3.9 m", "4 active", "56 of 60", Elevated,
      Some(SurgeWindow("19:30", "20:45", "Bridge closures recommended. Notify transit authority.")))
  ]

  /** `LOCATION_METRICS[selected] ?? LOCATION_METRICS['Northern Corridor']`. */
  function MetricsFor(selected: string): (m: LocationMetrics)
    ensures selected in LocationMetricsTable ==> m == LocationMetricsTable[selected]
    ensures selected !in LocationMetricsTable ==> m == LocationMetricsTable[NorthernCorridor]
  {
    if selected in LocationMetricsTable then LocationMetricsTable[selected] else LocationMetricsTable[NorthernCorridor]
  }

  /** Every default location has its own metrics; a district without an entry shows Northern Corridor's. */
  lemma MetricsCoverage(name: string)
    ensures forall d | d in DefaultLocations :: d in LocationMetricsTable
    ensures name !in LocationMetricsTable ==> MetricsFor(name).status == Elevated && MetricsFor(name).riverHeight == "4.8 m"
  {
  }

  datatype BadgeVariant = Danger | Warning | Success | Info

  /** The status badge: critical is danger, elevated a warning, safe a success, normal informational. */
  function StatusBadge(s: MetricsStatus): (v: BadgeVariant)
    ensures v == Danger <==> s == Critical
    ensures v == Warning <==> s == Elevated
    ensures v == Success <==> s == Safe
    ensures v == Info <==> s == Normal
  {
    match s
    case Critical => Danger
    case Elevated => Warning
    case Safe => Success
    case Normal => Info
  }

  class OverviewCard {
    var locations: seq<string>
    var selectedLocation: string
    var loading: bool
    /** The selection the fetch callback sees: the one of the first render, captured by the mount effect. */
    const capturedSelection: string

    constructor()
      ensures locations == DefaultLocations && selectedLocation == NorthernCorridor && loading
      ensures capturedSelection == NorthernCorridor
    {
      locations := DefaultLocations;
      selectedLocation := NorthernCorridor;
      loading := true;
      capturedSelection := NorthernCorridor;
    }

    /** The selector's `onChange`. */
    method Select(name: string)
      modifies this`selectedLocation
      ensures selectedLocation == name
    {
      selectedLocation := name;
    }

    /**
     * The fetch settling: with district names the list becomes the merge, and a captured
     * selection missing from it resets the selection to the first entry (`merged[0] || 'Northern
     * Corridor'`); in every case loading ends.
     */
    method DistrictsSettled(dbNames: Option<seq<string>>)
      modifies this`locations, this`selectedLocation, this`loading
      ensures locations == if dbNames.Some? then Merge(dbNames.value) else old(locations)
      ensures dbNames.Some? && capturedSelection !in Merge(dbNames.value) ==>
        selectedLocation == Merge(dbNames.value)[0]
      ensures dbNames.None? || capturedSelection in Merge(dbNames.value) ==>
        selectedLocation == old(selectedLocation)
      ensures !loading
    {
      if dbNames.Some? {
        var merged := Merge(dbNames.value);
        MergeShape(dbNames.value);
        locations := merged;
        if capturedSelection !in merged {
          selectedLocation := if merged[0] != "" then merged[0] else NorthernCorridor;
        }
      }
      loading := false;
    }
  }

  /**
   * Loading the districts never moves the selection, because the callback checks the
   * selection captured at mount, which is always in the merge: picking "Lower Delta" before
   * the response arrives keeps it, and the list then holds the defaults followed by the new
   * names.
   */
  method SelectionSurvivesLoad(dbNames: seq<string>) returns (selected: string, locations: seq<string>)
    ensures selected == "Lower Delta"
    ensures |locations| >= 4 && locations[..4] == DefaultLocations
    ensures forall x | x in dbNames :: x in locations
  {
    var card := new OverviewCard();
    card.Select("Lower Delta");
    card.DistrictsSettled(Some(dbNames));
    MergeShape(dbNames);
    selected, locations := card.selectedLocation, card.locations;
  }
}
