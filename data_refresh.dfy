/**
 * The live data refresh manager (`hooks/useDataRefresh.ts`): per-feed records for the
 * flood-risk, weather and community-updates feeds, the visibility handler that arms and
 * clears the three polling intervals, and the sensor countdown.
 *
 * Time is integer milliseconds passed in by the caller. The gateway (`lib/dataService.ts`)
 * is an oracle: a fetch is issued by appending its feed to `fetchLog`, and the promise it
 * returns settles later through `Complete` with the payload or the thrown value. The
 * browser's interval table is the map `armed` from handle to timer.
 */
module DataRefresh {
  import opened Wrappers
  import opened Payloads

  datatype Feed = FloodRisk | Weather | CommunityUpdates

  /** `REFRESH_INTERVALS`, in milliseconds. */
  function Interval(f: Feed): nat {
    match f
    case FloodRisk => 30 * 1000
    case Weather => 5 * 60 * 1000
    case CommunityUpdates => 15 * 60 * 1000
  }

  /** The message a failed fetch records when the thrown value is not an `Error`. */
  function DefaultError(f: Feed): string {
    match f
    case FloodRisk => "Failed to fetch flood risk"
    case Weather => "Failed to fetch weather"
    case CommunityUpdates => "Failed to fetch community updates"
  }

  /** A payload of one of the three feeds. */
  datatype FeedData =
    | FloodRiskData(floodRisk: FloodRiskPayload)
    | WeatherData(weather: WeatherModelPayload)
    | CommunityData(community: CommunityUpdatesPayload)

  /** How a gateway promise settled: with its payload, or by throwing (`Some(e.message)` for an `Error`). */
  datatype GatewayResult = Fetched(data: FeedData) | Threw(errorMessage: Option<string>)

  /** One feed's slice of `DataRefreshState`: its data, lastUpdated, loading and error entries. */
  datatype FeedRecord = FeedRecord(
    data: Option<FeedData>, lastUpdated: Option<int>, loading: bool, error: Option<string>)

  const EmptyRecord: FeedRecord := FeedRecord(None, None, false, None)

  datatype RefreshState = RefreshState(floodRisk: FeedRecord, weather: FeedRecord, communityUpdates: FeedRecord) {
    function Get(f: Feed): FeedRecord {
      match f
      case FloodRisk => floodRisk
      case Weather => weather
      case CommunityUpdates => communityUpdates
    }

    /** The spread update `{ ...s, x: { ...s.x, [f]: … } }`: feed `f` replaced, the others untouched. */
    function With(f: Feed, r: FeedRecord): (s: RefreshState)
      ensures s.Get(f) == r
      ensures forall g | g != f :: s.Get(g) == Get(g)
    {
      match f
      case FloodRisk => this.(floodRisk := r)
      case Weather => this.(weather := r)
      case CommunityUpdates => this.(communityUpdates := r)
    }
  }

  /** `initialState`: no data, no timestamps, nothing loading, no errors. */
  const InitialState: RefreshState := RefreshState(EmptyRecord, EmptyRecord, EmptyRecord)

  /** The first `setState` of a fetch: loading on, error cleared, data and lastUpdated kept. */
  function Started(r: FeedRecord): (s: FeedRecord)
    ensures s.loading && s.error == None
    ensures s.data == r.data && s.lastUpdated == r.lastUpdated
  {
    r.(loading := true, error := None)
  }

  /**
   * The `setState` that settles a fetch of feed `f` at time `now`: on success the payload and
   * `now` replace data and lastUpdated; on failure both are kept and the error is the thrown
   * message or the feed's default. Loading ends either way.
   */
  function Settled(f: Feed, r: FeedRecord, result: GatewayResult, now: int): (s: FeedRecord)
    ensures !s.loading
    ensures result.Fetched? ==> s == FeedRecord(Some(result.data), Some(now), false, None)
    ensures result.Threw? ==> s.data == r.data && s.lastUpdated == r.lastUpdated
    ensures result.Threw? ==> s.error == Some(result.errorMessage.GetOr(DefaultError(f)))
  {
    match result
    case Fetched(d) => r.(data := Some(d), lastUpdated := Some(now), loading := false, error := None)
    case Threw(m) => r.(loading := false, error := Some(m.GetOr(DefaultError(f))))
  }

  /** A settlement together with the time it arrived. */
  datatype Settlement = Settlement(result: GatewayResult, at: int)

  /** Applies a run of settlements of feed `f`, oldest first. */
  function SettleAll(f: Feed, r: FeedRecord, runs: seq<Settlement>): FeedRecord
    decreases |runs|
  {
    if runs == [] then r
    else SettleAll(f, Settled(f, r, runs[0].result, runs[0].at), runs[1..])
  }

  /** The payload and arrival time of the most recent successful settlement in `runs`, if any. */
  function LastSuccess(runs: seq<Settlement>): Option<(FeedData, int)>
    decreases |runs|
  {
    if runs == [] then None
    else if runs[|runs| - 1].result.Fetched? then Some((runs[|runs| - 1].result.data, runs[|runs| - 1].at))
    else LastSuccess(runs[..|runs| - 1])
  }

  /**
   * Stale data stays available: after any run of settlements, the feed shows the payload and
   * time of the most recent success, or what it showed before when none succeeded.
   */
  lemma {:induction false} SettleAllShowsLastSuccess(f: Feed, r: FeedRecord, runs: seq<Settlement>)
    ensures var s := SettleAll(f, r, runs);
      match LastSuccess(runs)
      case Some((d, t)) => s.data == Some(d) && s.lastUpdated == Some(t)
      case None => s.data == r.data && s.lastUpdated == r.lastUpdated
    decreases |runs|
  {
    if runs != [] {
      var init := runs[..|runs| - 1];
      var last := runs[|runs| - 1];
      assert runs == init + [last];
      SettleAllSnoc(f, r, init, last);
      SettleAllShowsLastSuccess(f, r, init);
    }
  }

  lemma {:induction false} SettleAllSnoc(f: Feed, r: FeedRecord, init: seq<Settlement>, last: Settlement)
    ensures SettleAll(f, r, init + [last]) == Settled(f, SettleAll(f, r, init), last.result, last.at)
    decreases |init|
  {
    if init == [] {
      assert init + [last] == [last];
    } else {
      assert (init + [last])[1..] == init[1..] + [last];
      SettleAllSnoc(f, Settled(f, r, init[0].result, init[0].at), init[1..], last);
    }
  }

  /** The seconds of the sensor interval, `REFRESH_INTERVALS.sensorTelemetry / 1000`. */
  const SensorSeconds: int := Interval(FloodRisk) / 1000

  /**
   * `Math.max(0, Math.ceil(interval - elapsed))` with `elapsed = elapsedMs / 1000` taken as an
   * exact real: the result is the least non-negative integer not below the seconds remaining.
   */
  function Countdown(elapsedMs: int): (r: int)
    ensures r >= 0 && r as real >= SensorSeconds as real - elapsedMs as real / 1000.0
    ensures r > 0 ==> (r - 1) as real < SensorSeconds as real - elapsedMs as real / 1000.0
    ensures elapsedMs >= 0 ==> r <= SensorSeconds
  {
    var q := elapsedMs / 1000;
    CeilOfRemaining(elapsedMs);
    if SensorSeconds - q < 0 then 0 else SensorSeconds - q
  }

  /** `elapsedMs / 1000.0` lies in `[q, q + 1)` for the integer quotient `q`. */
  lemma CeilOfRemaining(elapsedMs: int)
    ensures (elapsedMs / 1000) as real <= elapsedMs as real / 1000.0 < (elapsedMs / 1000 + 1) as real
  {
    var q, m := elapsedMs / 1000, elapsedMs % 1000;
    assert elapsedMs == 1000 * q + m && 0 <= m < 1000;
    assert elapsedMs as real == 1000.0 * q as real + m as real;
    assert elapsedMs as real / 1000.0 == q as real + m as real / 1000.0;
  }

  /** The countdown starts at the full 30 s and has run out once 30 s have passed. */
  lemma CountdownEnds(elapsedMs: int)
    ensures Countdown(0) == 30
    ensures elapsedMs >= 30000 ==> Countdown(elapsedMs) == 0
  {
  }

  /** The countdown never goes up as time advances. */
  lemma CountdownMonotone(e1: int, e2: int)
    requires e1 <= e2
    ensures Countdown(e2) <= Countdown(e1)
  {
    var q1, q2 := e1 / 1000, e2 / 1000;
    assert e1 == 1000 * q1 + e1 % 1000;
    assert e2 == 1000 * q2 + e2 % 1000;
    assert q1 <= q2;
  }

  /** The three interval handles kept in `intervalRefs`. */
  datatype IntervalRefs = IntervalRefs(sensor: nat, weather: nat, community: nat) {
    function Handles(): set<nat> {
      {sensor, weather, community}
    }
  }

  /** A live browser interval: the feed its callback fetches and its period. */
  datatype Timer = Timer(feed: Feed, periodMs: nat)

  function RefHandles(refs: Option<IntervalRefs>): set<nat> {
    match refs
    case None => {}
    case Some(h) => h.Handles()
  }

  /** The `useDataRefresh` hook instance together with the part of the browser it drives. */
  class RefreshManager {
    /** The hook's React state. */
    var state: RefreshState
    /** `intervalRefs.current`. */
    var intervalRefs: Option<IntervalRefs>
    /** `isVisibleRef.current`. */
    var isVisible: bool
    /** Whether `handleVisibility` is registered for `visibilitychange`. */
    var listening: bool
    /** The browser's live intervals, by handle. */
    var armed: map<nat, Timer>
    /** The next handle `setInterval` hands out. */
    var nextHandle: nat
    /** The gateway calls issued so far, in order. */
    var fetchLog: seq<Feed>

    /** Handles are never reused, and the refs name distinct handles. */
    ghost predicate Valid()
      reads this
    {
      && (forall h | h in armed :: h < nextHandle)
      && (intervalRefs.Some? ==>
            var r := intervalRefs.value;
            r.sensor < nextHandle && r.weather < nextHandle && r.community < nextHandle
            && r.sensor != r.weather && r.weather != r.community && r.sensor != r.community)
    }

    /** The doc comment's "no duplicate intervals": the live intervals are exactly the ones the refs name. */
    ghost predicate NoStrayIntervals()
      reads this
    {
      armed.Keys == RefHandles(intervalRefs)
    }

    /** The first render: `initialState`, no timers, not yet listening. */
    constructor ()
      ensures Valid() && NoStrayIntervals()
      ensures state == InitialState && intervalRefs == None && isVisible && !listening
      ensures armed == map[] && fetchLog == []
    {
      state := InitialState;
      intervalRefs := None;
      isVisible := true;
      listening := false;
      armed := map[];
      nextHandle := 0;
      fetchLog := [];
    }

    /** `fetchFlood`/`fetchWeather`/`fetchCommunity` up to the `await`: loading on, gateway called. */
    method StartFetch(f: Feed)
      requires Valid()
      modifies this`state, this`fetchLog
      ensures Valid()
      ensures state == old(state).With(f, Started(old(state).Get(f)))
      ensures fetchLog == old(fetchLog) + [f]
    {
      state := state.With(f, Started(state.Get(f)));
      fetchLog := fetchLog + [f];
    }

    /** The awaited gateway call of feed `f` settles at time `now`. */
    method Complete(f: Feed, result: GatewayResult, now: int)
      requires Valid()
      modifies this`state
      ensures Valid()
      ensures state == old(state).With(f, Settled(f, old(state).Get(f), result, now))
    {
      state := state.With(f, Settled(f, state.Get(f), result, now));
    }

    /** `refreshAll`: one fetch of every feed, timers untouched. */
    method RefreshAll()
      requires Valid()
      modifies this`state, this`fetchLog
      ensures Valid()
      ensures fetchLog == old(fetchLog) + [FloodRisk, Weather, CommunityUpdates]
      ensures forall f :: state.Get(f) == Started(old(state).Get(f))
    {
      StartFetch(FloodRisk);
      StartFetch(Weather);
      StartFetch(CommunityUpdates);
    }

    /** `window.setInterval`: a fresh handle for a new live interval. */
    method SetInterval(f: Feed) returns (h: nat)
      requires Valid()
      modifies this`armed, this`nextHandle
      ensures h == old(nextHandle) && nextHandle == h + 1
      ensures h !in old(armed) && armed == old(armed)[h := Timer(f, Interval(f))]
      ensures forall k | k in armed :: k < nextHandle
    {
      h := nextHandle;
      armed := armed[h := Timer(f, Interval(f))];
      nextHandle := nextHandle + 1;
    }

    /** `handleVisibility` with `document.hidden == hidden`. */
    method HandleVisibility(hidden: bool)
      requires Valid()
      modifies this
      ensures Valid()
      ensures isVisible == !hidden && listening == old(listening)
      ensures hidden ==> intervalRefs == None && armed == old(armed) - RefHandles(old(intervalRefs))
      ensures hidden ==> state == old(state) && fetchLog == old(fetchLog)
      ensures !hidden ==> fetchLog == old(fetchLog) + [FloodRisk, Weather, CommunityUpdates]
      ensures !hidden ==> forall f :: state.Get(f) == Started(old(state).Get(f))
      ensures !hidden ==> (intervalRefs.Some?
        && old(armed).Keys !! intervalRefs.value.Handles()
        && armed == old(armed)[intervalRefs.value.sensor := Timer(FloodRisk, 30000)]
                              [intervalRefs.value.weather := Timer(Weather, 300000)]
                              [intervalRefs.value.community := Timer(CommunityUpdates, 900000)])
      ensures old(NoStrayIntervals()) && (hidden || old(intervalRefs) == None) ==> NoStrayIntervals()
    {
      isVisible := !hidden;
      if hidden {
        ClearIntervals();
      } else {
        RefreshAll();
        ArmIntervals();
      }
    }

    /** The hidden branch: clear the three intervals the refs name, one `clearInterval` each, and null the refs. */
    method ClearIntervals()
      requires Valid()
      modifies this`armed, this`intervalRefs
      ensures Valid()
      ensures intervalRefs == None && armed == old(armed) - RefHandles(old(intervalRefs))
      ensures old(NoStrayIntervals()) ==> NoStrayIntervals()
    {
      if intervalRefs.Some? {
        var refs := intervalRefs.value;
        armed := armed - {refs.sensor};
        armed := armed - {refs.weather};
        armed := armed - {refs.community};
        intervalRefs := None;
      }
    }

    /** The visible branch's `setInterval` calls: three fresh live intervals, whose handles the refs now hold. */
    method ArmIntervals()
      requires Valid()
      modifies this`armed, this`nextHandle, this`intervalRefs
      ensures Valid()
      ensures intervalRefs.Some?
        && old(armed).Keys !! intervalRefs.value.Handles()
        && armed == old(armed)[intervalRefs.value.sensor := Timer(FloodRisk, 30000)]
                              [intervalRefs.value.weather := Timer(Weather, 300000)]
                              [intervalRefs.value.community := Timer(CommunityUpdates, 900000)]
      ensures old(intervalRefs) == None && old(NoStrayIntervals()) ==> NoStrayIntervals()
    {
      var s := SetInterval(FloodRisk);
      var w := SetInterval(Weather);
      var c := SetInterval(CommunityUpdates);
      intervalRefs := Some(IntervalRefs(s, w, c));
    }

    /** The effect: run `handleVisibility` once, then listen for `visibilitychange`. */
    method Mount(hidden: bool)
      requires Valid() && !listening
      modifies this
      ensures Valid() && listening
      ensures isVisible == !hidden
      ensures !hidden ==> fetchLog == old(fetchLog) + [FloodRisk, Weather, CommunityUpdates]
      ensures hidden ==> fetchLog == old(fetchLog) && state == old(state)
      ensures forall f :: state.Get(f).data == old(state).Get(f).data
      ensures hidden ==> intervalRefs == None
      ensures old(NoStrayIntervals()) && (hidden || old(intervalRefs) == None) ==> NoStrayIntervals()
    {
      HandleVisibility(hidden);
      listening := true;
    }

    /** A `visibilitychange` event; ignored once the listener is removed. */
    method VisibilityChanged(hidden: bool)
      requires Valid()
      modifies this
      ensures Valid() && listening == old(listening)
      ensures !old(listening) ==> (state == old(state) && armed == old(armed) && fetchLog == old(fetchLog)
        && intervalRefs == old(intervalRefs))
      ensures old(listening) && hidden ==> intervalRefs == None && fetchLog == old(fetchLog)
      ensures old(listening) && !hidden ==> fetchLog == old(fetchLog) + [FloodRisk, Weather, CommunityUpdates]
      ensures old(listening) && !hidden ==> intervalRefs.Some?
      ensures old(NoStrayIntervals()) && (hidden || old(intervalRefs) == None) ==> NoStrayIntervals()
    {
      if listening {
        HandleVisibility(hidden);
      }
    }

    /** A live interval fires: its feed is fetched; a handle no longer armed does nothing. */
    method Tick(h: nat)
      requires Valid()
      modifies this`state, this`fetchLog
      ensures Valid()
      ensures h in armed ==> (fetchLog == old(fetchLog) + [armed[h].feed]
        && state == old(state).With(armed[h].feed, Started(old(state).Get(armed[h].feed))))
      ensures h !in armed ==> fetchLog == old(fetchLog) && state == old(state)
    {
      if h in armed {
        StartFetch(armed[h].feed);
      }
    }

    /** The effect's cleanup: stop listening, clear the three intervals, leave the refs null. */
    method Unmount()
      requires Valid()
      modifies this
      ensures Valid() && !listening && intervalRefs == None
      ensures armed == old(armed) - RefHandles(old(intervalRefs))
      ensures state == old(state) && fetchLog == old(fetchLog)
      ensures old(NoStrayIntervals()) ==> armed == map[]
    {
      listening := false;
      if intervalRefs.Some? {
        var refs := intervalRefs.value;
        armed := armed - {refs.sensor, refs.weather, refs.community};
        intervalRefs := None;
      }
    }

    /**
     * New coordinates give new fetch callbacks, so React runs the cleanup and then the effect
     * again: a visible page refetches all three feeds at once; the stored data is not cleared.
     */
    method CoordinatesChanged(hidden: bool)
      requires Valid() && listening
      modifies this
      ensures Valid() && listening
      ensures !hidden ==> fetchLog == old(fetchLog) + [FloodRisk, Weather, CommunityUpdates]
      ensures hidden ==> fetchLog == old(fetchLog) && state == old(state)
      ensures forall f :: state.Get(f).data == old(state).Get(f).data
      ensures old(NoStrayIntervals()) ==> NoStrayIntervals()
    {
      Unmount();
      Mount(hidden);
    }
  }

  /**
   * Two "visible" runs of `handleVisibility` with no "hidden" between them overwrite the refs
   * without clearing the first three intervals: six stay live and only three can be cleared.
   */
  method RepeatedVisibleLeaksIntervals() returns (live: nat, clearable: nat)
    ensures live == 6 && clearable == 3
  {
    var m := new RefreshManager();
    m.HandleVisibility(false);
    var first := m.intervalRefs.value;
    m.HandleVisibility(false);
    var second := m.intervalRefs.value;
    assert first.Handles() !! second.Handles();
    assert m.armed.Keys == first.Handles() + second.Handles();
    live := |m.armed.Keys|;
    clearable := |RefHandles(m.intervalRefs)|;
  }

  /** A failed refresh after a successful one keeps the earlier payload and records the error. */
  method FailureKeepsStaleData(d: FeedData, t0: int, t1: int) returns (shown: Option<FeedData>, err: Option<string>)
    ensures shown == Some(d) && err == Some("Failed to fetch weather")
  {
    var m := new RefreshManager();
    m.StartFetch(Weather);
    m.Complete(Weather, Fetched(d), t0);
    m.StartFetch(Weather);
    m.Complete(Weather, Threw(None), t1);
    shown := m.state.weather.data;
    err := m.state.weather.error;
  }

  /**
   * Hidden then visible: exactly one fetch per feed is issued on becoming visible, however long
   * the page was hidden, and the three new intervals are the only live ones.
   */
  method HiddenThenVisible(hiddenFirst: bool) returns (issued: seq<Feed>, live: nat)
    ensures issued == [FloodRisk, Weather, CommunityUpdates] && live == 3
  {
    var m := new RefreshManager();
    m.Mount(hiddenFirst);
    m.VisibilityChanged(true);
    var before := m.fetchLog;
    m.VisibilityChanged(false);
    issued := m.fetchLog[|before|..];
    assert m.NoStrayIntervals();
    var refs := m.intervalRefs.value;
    assert m.armed.Keys == {refs.sensor, refs.weather, refs.community};
    live := |m.armed.Keys|;
  }

  /** The countdown hook: `seconds` changes only while the page is visible and the feed has been updated. */
  class SensorCountdown {
    var seconds: int

    constructor ()
      ensures seconds == SensorSeconds
    {
      seconds := SensorSeconds;
    }

    /** One run of `tick` at time `now`, if the effect's guard lets it run. */
    method Tick(lastUpdated: Option<int>, visible: bool, now: int)
      modifies this
      ensures lastUpdated.Some? && visible ==> seconds == Countdown(now - lastUpdated.value)
      ensures lastUpdated.None? || !visible ==> seconds == old(seconds)
    {
      if lastUpdated.Some? && visible {
        seconds := Countdown(now - lastUpdated.value);
      }
    }
  }
}
