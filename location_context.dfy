/**
 * The geolocation context (`context/LocationContext.tsx`): the user's position, whether it
 * comes from the device, and the state of the last request. The browser's geolocation API is
 * an oracle: `Refresh` says whether it exists, and the request it starts is answered later by
 * `OnPosition` or `OnError`. Coordinates are exact `real`s.
 */
module LocationContext {
  import opened Wrappers

  /** `FALLBACK_CENTER`, New Delhi, as `[lng, lat]`. */
  const FallbackLng: real := 77.209
  const FallbackLat: real := 28.6139

  datatype Status = Loading | Ready | Denied | Error | Unavailable

  datatype LocationState = LocationState(
    latitude: real, longitude: real, isLive: bool, status: Status, errorMessage: Option<string>)

  /** `initialState`: the fallback, not live, loading, no message. */
  const InitialState: LocationState := LocationState(FallbackLat, FallbackLng, false, Loading, None)

  const NotSupported: string := "Geolocation not supported"

  /** The message of a failed position request, by `GeolocationPositionError.code`. */
  function ErrorMessage(code: int): (m: string)
    ensures code == 1 <==> m == "Location permission denied"
    ensures code == 2 <==> m == "Position unavailable"
    ensures code == 3 <==> m == "Location request timed out"
    ensures code !in {1, 2, 3} <==> m == "Could not get location"
  {
    if code == 1 then "Location permission denied"
    else if code == 2 then "Position unavailable"
    else if code == 3 then "Location request timed out"
    else "Could not get location"
  }

  /** `useMapCenter`: `[longitude, latitude]`, the order MapLibre expects. */
  function MapCenter(s: LocationState): (c: (real, real))
    ensures c.0 == s.longitude && c.1 == s.latitude
  {
    (s.longitude, s.latitude)
  }

  /** The fallback center in map order is `FALLBACK_CENTER` itself. */
  lemma InitialCenter()
    ensures MapCenter(InitialState) == (77.209, 28.6139)
  {
  }

  class LocationProvider {
    var state: LocationState
    /** Whether a `getCurrentPosition` request is outstanding. */
    var requestPending: bool

    constructor()
      ensures state == InitialState && !requestPending
    {
      state := InitialState;
      requestPending := false;
    }

    /**
     * `refresh`: without geolocation, fall back and report it unavailable; otherwise only the
     * status becomes loading (the coordinates, liveness and any earlier message stay) and a
     * request is started.
     */
    method Refresh(geolocationAvailable: bool)
      modifies this
      ensures !geolocationAvailable ==>
        state == LocationState(FallbackLat, FallbackLng, false, Unavailable, Some(NotSupported))
        && requestPending == old(requestPending)
      ensures geolocationAvailable ==> state == old(state).(status := Loading) && requestPending
    {
      if !geolocationAvailable {
        state := state.(latitude := FallbackLat, longitude := FallbackLng, isLive := false,
                        status := Unavailable, errorMessage := Some(NotSupported));
        return;
      }
      state := state.(status := Loading);
      requestPending := true;
    }

    /** The success callback, through `updateLocation`: live coordinates, ready, no message. */
    method OnPosition(latitude: real, longitude: real)
      requires requestPending
      modifies this
      ensures state == LocationState(latitude, longitude, true, Ready, None) && !requestPending
    {
      state := LocationState(latitude, longitude, true, Ready, None);
      requestPending := false;
    }

    /** The error callback: back to the fallback, not live, denied for code 1 and error otherwise. */
    method OnError(code: int)
      requires requestPending
      modifies this
      ensures state == LocationState(FallbackLat, FallbackLng, false, if code == 1 then Denied else Error,
                                     Some(ErrorMessage(code)))
      ensures !requestPending
    {
      state := LocationState(FallbackLat, FallbackLng, false, if code == 1 then Denied else Error,
                             Some(ErrorMessage(code)));
      requestPending := false;
    }
  }

  /**
   * Outcomes of a request: the state is live exactly when it is ready, and off the device's
   * position it always shows the fallback center.
   */
  method RequestOutcome(succeed: bool, code: int, latitude: real, longitude: real)
    returns (s: LocationState)
    ensures s.isLive <==> s.status == Ready
    ensures !s.isLive ==> MapCenter(s) == (FallbackLng, FallbackLat)
    ensures s.status == Denied <==> !succeed && code == 1
    ensures s.errorMessage.None? <==> succeed
  {
    var p := new LocationProvider();
    p.Refresh(true);
    if succeed {
      p.OnPosition(latitude, longitude);
    } else {
      p.OnError(code);
    }
    s := p.state;
  }

  /**
   * Refreshing after a failure shows "loading" while still carrying the earlier message and
   * the fallback center, because the loading update spreads the previous state.
   */
  method StaleMessageWhileLoading(code: int) returns (s: LocationState)
    ensures s.status == Loading && s.errorMessage == Some(ErrorMessage(code)) && !s.isLive
  {
    var p := new LocationProvider();
    p.Refresh(true);
    p.OnError(code);
    p.Refresh(true);
    s := p.state;
  }
}
