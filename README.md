# FloodSense core, modelled in Dafny

FloodSense is a flood-monitoring web application: a Next.js dashboard backed by a handful of API
routes and a PostgreSQL database reached through Prisma. This project models its core and proves
properties of that model:

- **Response envelopes** (`responseHandler.ts`, `apiErrorHandler.ts`). Every API answer is either
  a success `{ success: true, message, data, timestamp }` or a failure
  `{ success: false, message, error: { code, details? }, timestamp }`. Details reach the client
  only when `NODE_ENV` is `"development"`. (module `ResponseHandler`, `ApiErrorHandler`)
- **Authentication routes.**
  - Signup validates, normalises, checks for duplicates and creates a user with a hashed password. (module `SignupRoute`, over the user table of `UserStore`)
  - Login checks the JWT secret, looks up the normalised email, compares the password and signs a token. (module `LoginRoute`)
  - The protected route checks a `Bearer` header and verifies the token. (module `ProtectedRoute`)
- **Location routes.**
  - The flood-risk snapshot around a coordinate: three zone rectangles, five heatmap points and a critical alert. (module `FloodRiskRoute`)
  - The ten newest active community alerts, with relative times. (module `CommunityUpdatesRoute`)
- **The clean-up script** `remove-plain-passwords.ts`. It deletes users whose stored password is
  not a bcrypt hash. (module `RemovePlainPasswords`)
- **Client state.**
  - The session in React state and `localStorage`. (module `AuthContext`)
  - The geolocation context. (module `LocationContext`)
  - The refresh controller of the three dashboard feeds: its fetches, its timers, the page-visibility handling and the sensor countdown. (module `DataRefresh`)
  - The dashboard's labels, badges and alerts panel. (module `DashboardContent`)
  - The live overview card. (module `LiveOverviewCard`)
  - The profile initials. (module `ProfilePage`)
- **The flood-risk map component** (module `FloodRiskMap`).
  - The GeoJSON conversions and the risk filter.
  - Its lifecycle against the MapLibre engine: loading, the load handler, the effects that keep layers, filter and markers in sync, and the clean-up on unmount.

The modules `Strings`, `Payloads` and `Wrappers` hold what the others share:
- JavaScript's `trim`, `toLowerCase`, `indexOf`, `replace`, `split` and number formatting;
- the data the routes send;
- `Option` and `Result`.

Objects the source updates in place are classes with `modifies` clauses:
- the user table;
- the session provider;
- the location provider;
- the refresh controller;
- the sensor countdown;
- the overview card.

The request handlers, the formatters and the map's conversions are functions. The map
component's refs and the engine it drives are a value (`FloodRiskMap.View`), which each event
transforms.

**What is taken as a parameter.** Everything the model does not compute is an argument:
- **Cryptography:** bcrypt's `hash` and `compare`, and jsonwebtoken's `sign` and `verify`.
- **Parsing:** `JSON.parse`, `JSON.stringify` and `parseFloat`.
- **The request:**
  - the parsed request body, which is `Err` when `request.json()` throws;
  - the database rows, with the result of the alert query given as any list satisfying `CommunityUpdatesRoute.QueryResult`.
- **The environment:** the clock, `NODE_ENV`, the ISO timestamp, the browser's geolocation answer and whether the page is visible.

Properties that need an assumption about a parameter say so in their `requires`. Examples:
- `compare` accepts a password against its own hash;
- `JSON.parse` undoes `JSON.stringify`;
- `hash` yields bcrypt hashes.

Three behaviours of the source are modelled as written and stated as lemmas:
- `DataRefresh.RepeatedVisibleLeaksIntervals`: two "visible" runs of the visibility handler with no "hidden" run between them leave six timers armed. The refs can clear only three of them.
- `FloodRiskMap.UnmountBeforeLoadKeepsMap`: unmounting the map component after the map is constructed but before its `load` event leaves that map alive with no ref to it.
- `LoginRoute.FailuresLookAlike`: login's two 401 answers share status and message but differ in error code (`NOT_FOUND` against `VALIDATION_ERROR`).

On the live overview card, the reset of the selection to `merged[0]` happens only when the
selection captured at mount is missing from the merged list. That selection is
"Northern Corridor", which the merge always keeps first (`LiveOverviewCard.MergeShape`), so the
reset never fires.

## Model

| member | source | states |
|---|---|---|
| Strings.Trim | floodsense/src/app/api/auth/signup/route.ts:25 | the result neither starts nor ends with white space |
| Strings.TrimFrame | floodsense/src/app/api/auth/signup/route.ts:25-26 | the trimmed string is a contiguous part of the input with only white space before and after it |
| Strings.TrimEmptyIff | floodsense/src/app/api/auth/signup/route.ts:29 | a string trims to the empty string exactly when it is all white space |
| Strings.TrimIdempotent | floodsense/src/app/api/auth/signup/route.ts:25 | trimming a trimmed string changes nothing |
| Strings.ToLower | floodsense/src/app/api/auth/signup/route.ts:26 | same length, each ASCII capital replaced by its small letter and every other character kept |
| Strings.ToUpper | floodsense/src/app/profile/page.tsx:20 | same length, each ASCII small letter replaced by its capital and every other character kept |
| Strings.ToLowerNormalises | floodsense/src/app/api/auth/signup/route.ts:26 | a lower-cased string has no ASCII capital and lower-casing it again changes nothing |
| Strings.IndexOf | floodsense/src/app/api/auth/protected/route.ts:17 | the index found is an occurrence of the pattern and no occurrence comes before it; `None` means there is none |
| Strings.ReplaceFirstOfPrefix | floodsense/src/app/api/auth/protected/route.ts:17 | replacing the first occurrence of a prefix by nothing strips exactly that prefix |
| Strings.Split | floodsense/src/app/profile/page.tsx:17 | there is at least one piece and no piece contains the separator |
| Strings.SplitNoSeparator | floodsense/src/app/profile/page.tsx:17 | a string without the separator splits into itself alone |
| Strings.SplitAtFirst | floodsense/src/app/profile/page.tsx:17 | splitting at the first separator gives the piece before it followed by the pieces of the rest |
| Strings.JoinSplit | floodsense/src/app/profile/page.tsx:17 | joining the pieces with the separator gives back the string that was split |
| Strings.NatToString | floodsense/src/components/dashboard/DashboardContent.tsx:28 | the numeral of a number is a non-empty run of digits without a leading zero (except for 0 itself) |
| Strings.NatToStringValue | floodsense/src/components/dashboard/DashboardContent.tsx:52 | reading the numeral of `n` back as a decimal gives `n` |
| Strings.NatToStringInjective | floodsense/src/components/dashboard/DashboardContent.tsx:52 | two numbers with the same numeral are equal |
| ResponseHandler.SendSuccess | floodsense/src/lib/responseHandler.ts:3-17 | a success envelope carrying exactly the given status, message, data and timestamp |
| ResponseHandler.SendError | floodsense/src/lib/responseHandler.ts:19-37 | a failure envelope with the given status, message, code and timestamp; details travel only when NODE_ENV is "development" |
| ResponseHandler.Defaults | floodsense/src/lib/responseHandler.ts:3-22 | the defaults: 200, "Success" and no data; 500, "Something went wrong", INTERNAL_ERROR and no details |
| ResponseHandler.DetailsHiddenOutsideDevelopment | floodsense/src/lib/responseHandler.ts:31 | outside development no failure envelope carries details, whatever the caller passed |
| ApiErrorHandler.SafeMessage | floodsense/src/lib/apiErrorHandler.ts:13-14 | the caller's message in development, "Unexpected error" otherwise |
| ApiErrorHandler.HandleApiError | floodsense/src/lib/apiErrorHandler.ts:5-17 | the log entry holds the caller's message and the error; the answer is a failure with the given status and code and a message that is the caller's or "Unexpected error" |
| ApiErrorHandler.ClientSeesOnlyInDevelopment | floodsense/src/lib/apiErrorHandler.ts:11-16 | the log keeps message and error; the client sees both in development and neither outside it |
| ApiErrorHandler.ApiErrorDefaults | floodsense/src/lib/apiErrorHandler.ts:5-9 | the defaults are status 500, code INTERNAL_ERROR and "Something went wrong" in the log |
| DataRefresh.RefreshState.With | floodsense/src/hooks/useDataRefresh.ts:74 | the spread update replaces one feed's record and leaves the other two feeds as they were |
| DataRefresh.Started | floodsense/src/hooks/useDataRefresh.ts:74 | a started fetch turns loading on and clears the error, keeping the data and lastUpdated |
| DataRefresh.Settled | floodsense/src/hooks/useDataRefresh.ts:77-91 | a success stores the payload and `now` and clears loading and error; a failure keeps data and lastUpdated and records the thrown message or the feed's default |
| DataRefresh.SettleAllShowsLastSuccess | floodsense/src/hooks/useDataRefresh.ts:77-91 | after any run of settlements a feed shows the payload and time of the most recent success, or what it showed before if none succeeded |
| DataRefresh.Countdown | floodsense/src/hooks/useDataRefresh.ts:214-218 | the least non-negative integer not below the seconds remaining, and at most 30 for elapsed time that is not negative |
| DataRefresh.CountdownEnds | floodsense/src/hooks/useDataRefresh.ts:209-218 | the countdown is 30 at elapsed 0 and 0 once 30 s have passed |
| DataRefresh.CountdownMonotone | floodsense/src/hooks/useDataRefresh.ts:216-217 | the countdown never goes up as time advances |
| DataRefresh.RefreshManager.constructor | floodsense/src/hooks/useDataRefresh.ts:69-71 | the initial state, no refs, visible, no timers and no fetches |
| DataRefresh.RefreshManager.StartFetch | floodsense/src/hooks/useDataRefresh.ts:73-76 | a fetch start updates only that feed's record and issues one gateway call |
| DataRefresh.RefreshManager.Complete | floodsense/src/hooks/useDataRefresh.ts:77-91 | a settlement updates only that feed's record, as `Settled` says |
| DataRefresh.RefreshManager.RefreshAll | floodsense/src/hooks/useDataRefresh.ts:142-144 | one fetch per feed, in order, each feed started, timers untouched |
| DataRefresh.RefreshManager.SetInterval | floodsense/src/hooks/useDataRefresh.ts:163-165 | a fresh handle, never used before, armed with the feed and its period |
| DataRefresh.RefreshManager.HandleVisibility | floodsense/src/hooks/useDataRefresh.ts:149-168 | hidden: the refs' three timers are cleared and the refs nulled, nothing fetched; visible: one fetch per feed and three new timers of 30000, 300000 and 900000 ms that the refs hold |
| DataRefresh.RefreshManager.ClearIntervals | floodsense/src/hooks/useDataRefresh.ts:151-157 | the timers the refs name are cleared, the refs become null, and a null ref clears nothing |
| DataRefresh.RefreshManager.ArmIntervals | floodsense/src/hooks/useDataRefresh.ts:162-166 | three new timers with the three periods, on handles not armed before; no stray timer if the refs were null |
| DataRefresh.RefreshManager.Mount | floodsense/src/hooks/useDataRefresh.ts:146-171 | the handler runs once and the listener is registered; the stored data is never cleared |
| DataRefresh.RefreshManager.VisibilityChanged | floodsense/src/hooks/useDataRefresh.ts:171 | an event runs the handler while listening and does nothing once the listener is removed |
| DataRefresh.RefreshManager.Tick | floodsense/src/hooks/useDataRefresh.ts:163-165 | an armed timer fetches its own feed; a cleared one does nothing |
| DataRefresh.RefreshManager.Unmount | floodsense/src/hooks/useDataRefresh.ts:173-181 | the listener is removed, the refs' timers are cleared and the refs are null; with no stray timers none is left armed |
| DataRefresh.RefreshManager.CoordinatesChanged | floodsense/src/hooks/useDataRefresh.ts:173-182 | cleanup then a new effect: a visible page refetches all three feeds and the data is kept |
| DataRefresh.RepeatedVisibleLeaksIntervals | floodsense/src/hooks/useDataRefresh.ts:162-166 | two visible runs with no hidden run between leave six timers armed, of which the refs can clear three |
| DataRefresh.FailureKeepsStaleData | floodsense/src/hooks/useDataRefresh.ts:108-114 | a failed weather refresh after a success keeps the earlier payload and records "Failed to fetch weather" |
| DataRefresh.HiddenThenVisible | floodsense/src/hooks/useDataRefresh.ts:149-168 | becoming visible after being hidden issues exactly one fetch per feed and leaves exactly three timers armed |
| DataRefresh.SensorCountdown.constructor | floodsense/src/hooks/useDataRefresh.ts:209 | the countdown starts at 30 |
| DataRefresh.SensorCountdown.Tick | floodsense/src/hooks/useDataRefresh.ts:212-220 | a tick recomputes the countdown only while visible and after a first update, and otherwise keeps the last value |
| FloodRiskMap.ZoneToFeature | floodsense/src/components/maps/AdvancedFloodRiskMap.tsx:16-24 | the Feature has the zone's id, properties {risk, name, waterLevel} and the Polygon `[zone.coordinates]` |
| FloodRiskMap.ZonesToGeoJSON | floodsense/src/components/maps/AdvancedFloodRiskMap.tsx:13-26 | one Feature per zone, in the same order |
| FloodRiskMap.FeatureToZone | floodsense/src/components/maps/AdvancedFloodRiskMap.tsx:16-24 | a Feature read back as a zone converts to that same Feature |
| FloodRiskMap.ZonesRoundTrip | floodsense/src/components/maps/AdvancedFloodRiskMap.tsx:13-26 | every Feature reads back as the zone it came from |
| FloodRiskMap.HeatmapToGeoJSON | floodsense/src/components/maps/AdvancedFloodRiskMap.tsx:28-40 | one Point Feature per point, in order, with position and intensity copied |
| FloodRiskMap.HeatmapRoundTrip | floodsense/src/components/maps/AdvancedFloodRiskMap.tsx:28-40 | the points read back from their Features are the input points |
| FloodRiskMap.GetFilter | floodsense/src/components/maps/AdvancedFloodRiskMap.tsx:42-45 | no filter exactly for "all"; otherwise equality of `risk` with the tier's name |
| FloodRiskMap.FilterSelectsTier | floodsense/src/components/maps/AdvancedFloodRiskMap.tsx:42-45 | applied to the zone Features, the filter shows exactly the zones of the chosen tier, or all of them for "all" |
| FloodRiskMap.Mounted | floodsense/src/components/maps/AdvancedFloodRiskMap.tsx:60-75 | the component's refs and state before the first effect: no map, no markers, loading, filter "all"; its invariant is `MountedInv` |
| FloodRiskMap.ImportSettled | floodsense/src/components/maps/AdvancedFloodRiskMap.tsx:106-111 | the dynamic import settling: an error status unless cancelled, or the library handed over; its invariant is `ImportSettledInv`, its status rules `ReadyOnlyOnLoad` |
| FloodRiskMap.OnLoad | floodsense/src/components/maps/AdvancedFloodRiskMap.tsx:191-272 | the load handler: sources, layers, popup and user marker created, camera eased once, status ready; characterised by `OnLoadInv` and `ReadyOnlyOnLoad` |
| FloodRiskMap.Cleanup | floodsense/src/components/maps/AdvancedFloodRiskMap.tsx:77-97 | the init effect's `cleanup`; characterised by `CleanupReleasesAll`, `CleanupIdempotent` and `CleanupInv` |
| FloodRiskMap.Unmount | floodsense/src/components/maps/AdvancedFloodRiskMap.tsx:292-296 | the init effect's teardown followed by the critical effect's; characterised by `UnmountReleasesAll`, `UnmountBeforeLoadKeepsMap` and `UnmountInv` |
| FloodRiskMap.SyncLayers | floodsense/src/components/maps/AdvancedFloodRiskMap.tsx:299-307 | the layer-data effect; characterised by `EffectsGatedOnReady` and `SyncLayersInv` |
| FloodRiskMap.SyncFilter | floodsense/src/components/maps/AdvancedFloodRiskMap.tsx:309-319 | the filter effect; characterised by `EffectsGatedOnReady`, `FilterBeforeReady` and `SyncFilterInv` |
| FloodRiskMap.SelectFilter | floodsense/src/components/maps/AdvancedFloodRiskMap.tsx:395 | a filter button click sets the chosen tier; `FilterBeforeReady` shows it applied once the map is ready |
| FloodRiskMap.SyncUserPosition | floodsense/src/components/maps/AdvancedFloodRiskMap.tsx:321-329 | the user-position effect; characterised by `UserPositionMovesOnly`, `EffectsGatedOnReady` and `SyncUserPositionInv` |
| FloodRiskMap.SyncCriticalMarker | floodsense/src/components/maps/AdvancedFloodRiskMap.tsx:331-367 | the critical-marker effect; characterised by `CriticalMarkerReplaced`, `CriticalMarkerTornDown` and `SyncCriticalMarkerInv` |
| FloodRiskMap.Step | floodsense/src/components/maps/AdvancedFloodRiskMap.tsx:99-367 | one event of any interleaving of mount, import, load, effects, clicks and unmount; characterised by `StepInv`, `RunInv` and `AtMostOneOfEach` |
| FloodRiskMap.MountedInv | floodsense/src/components/maps/AdvancedFloodRiskMap.tsx:60-75 | a freshly mounted component holds no engine object |
| FloodRiskMap.ImportSettledInv | floodsense/src/components/maps/AdvancedFloodRiskMap.tsx:106-111 | the import settling keeps the refs in step with the engine |
| FloodRiskMap.OnLoadInv | floodsense/src/components/maps/AdvancedFloodRiskMap.tsx:191-272 | the load handler keeps the refs in step with the engine and eases the camera at most once |
| FloodRiskMap.CleanupInv | floodsense/src/components/maps/AdvancedFloodRiskMap.tsx:77-97 | `cleanup` keeps the refs in step with the engine |
| FloodRiskMap.UnmountInv | floodsense/src/components/maps/AdvancedFloodRiskMap.tsx:292-296 | unmounting keeps the refs in step with the engine |
| FloodRiskMap.SyncCriticalMarkerInv | floodsense/src/components/maps/AdvancedFloodRiskMap.tsx:331-367 | the critical-marker effect keeps exactly the marker its ref names |
| FloodRiskMap.SyncLayersInv | floodsense/src/components/maps/AdvancedFloodRiskMap.tsx:299-307 | the layer-data effect creates and removes nothing |
| FloodRiskMap.SyncFilterInv | floodsense/src/components/maps/AdvancedFloodRiskMap.tsx:309-319 | the filter effect creates and removes nothing |
| FloodRiskMap.SyncUserPositionInv | floodsense/src/components/maps/AdvancedFloodRiskMap.tsx:321-329 | the user-position effect creates and removes nothing |
| FloodRiskMap.StepInv | floodsense/src/components/maps/AdvancedFloodRiskMap.tsx:99-367 | every event keeps the refs in step with the engine |
| FloodRiskMap.RunInv | floodsense/src/components/maps/AdvancedFloodRiskMap.tsx:99-367 | any sequence of events keeps the refs in step with the engine |
| FloodRiskMap.AtMostOneOfEach | floodsense/src/components/maps/AdvancedFloodRiskMap.tsx:336-359 | in every interleaving the engine holds at most one map, one critical marker, one user marker and one popup, and the camera eased at most once |
| FloodRiskMap.CleanupReleasesAll | floodsense/src/components/maps/AdvancedFloodRiskMap.tsx:77-97 | removals in the order popup, user marker, critical marker, map; all refs null and flags false; no popup or marker left |
| FloodRiskMap.CleanupIdempotent | floodsense/src/components/maps/AdvancedFloodRiskMap.tsx:292-296 | a second `cleanup` changes nothing |
| FloodRiskMap.UnmountReleasesAll | floodsense/src/components/maps/AdvancedFloodRiskMap.tsx:292-296 | unmounting a loaded map leaves the engine holding nothing the component created |
| FloodRiskMap.EffectsGatedOnReady | floodsense/src/components/maps/AdvancedFloodRiskMap.tsx:299-334 | the layer, filter and user-position effects are no-ops exactly when their guard fails; the critical effect is a no-op when its guard fails and no teardown is pending |
| FloodRiskMap.UserPositionMovesOnly | floodsense/src/components/maps/AdvancedFloodRiskMap.tsx:326-328 | a position change makes one `setLngLat` on the existing marker and leaves the engine's objects as they were |
| FloodRiskMap.CriticalTeardown | floodsense/src/components/maps/AdvancedFloodRiskMap.tsx:361-366 | the critical-marker effect's returned teardown: when armed, the marker its ref names is removed, the ref nulled and the teardown disarmed; characterised by `CriticalMarkerTornDown` and `CriticalTeardownInv` |
| FloodRiskMap.CriticalMarkerTornDown | floodsense/src/components/maps/AdvancedFloodRiskMap.tsx:361-366 | when the new snapshot has no critical alert, the teardown removes the marker placed last, clears its ref and leaves the engine with no critical marker |
| FloodRiskMap.CriticalMarkerReplaced | floodsense/src/components/maps/AdvancedFloodRiskMap.tsx:336-359 | the old critical marker is removed before the new one is created, and the engine then holds only the new one |
| FloodRiskMap.ReadyOnlyOnLoad | floodsense/src/components/maps/AdvancedFloodRiskMap.tsx:269-279 | status becomes ready only in the load handler; a failed import sets error unless cancelled |
| FloodRiskMap.UnmountBeforeLoadKeepsMap | floodsense/src/components/maps/AdvancedFloodRiskMap.tsx:191-192 | unmounting between construction and load leaves the constructed map in the engine with no ref to it |
| FloodRiskMap.FilterBeforeReady | floodsense/src/components/maps/AdvancedFloodRiskMap.tsx:309-319 | a filter picked before the map is ready is applied when the filter effect runs after load |
| FloodRiskRoute.ReadCoordinate | floodsense/src/app/api/location/flood-risk/route.ts:15-16 | a missing parameter takes its default; a present one is what parsing gave |
| FloodRiskRoute.OffsetCoord | floodsense/src/app/api/location/flood-risk/route.ts:5-7 | `c + km/111` for `c >= 0` and `c - km/111` otherwise |
| FloodRiskRoute.OffsetRoundTrip | floodsense/src/app/api/location/flood-risk/route.ts:5-7 | offsetting back undoes an offset that stays on the same side of zero |
| FloodRiskRoute.Get | floodsense/src/app/api/location/flood-risk/route.ts:18-23 | the answer is the 400 "Invalid lat or lng" body exactly when a coordinate is NaN |
| FloodRiskRoute.Zones | floodsense/src/app/api/location/flood-risk/route.ts:25-65 | the three zones zone-1..zone-3 with their names, water levels and rectangles offset from the request; characterised by `SnapshotShape` and `RingsAreRectangles` |
| FloodRiskRoute.HeatmapPoints | floodsense/src/app/api/location/flood-risk/route.ts:67-73 | the five heatmap points, the second at the request with intensity 1; characterised by `SnapshotShape` |
| FloodRiskRoute.Alert | floodsense/src/app/api/location/flood-risk/route.ts:75-78 | the critical alert offset (0.1, -0.3) km from the request with its fixed message; characterised by `SnapshotShape` |
| FloodRiskRoute.SnapshotShape | floodsense/src/app/api/location/flood-risk/route.ts:25-84 | a 200 success envelope; three zones zone-1..zone-3 of tiers high, medium, low; closed five-vertex rings; five heatmap points with the second at the request and intensity 1, all in [0, 1]; the critical alert always present |
| FloodRiskRoute.DefaultCenter | floodsense/src/app/api/location/flood-risk/route.ts:15-16 | with no parameters the snapshot centres on (28.6139, 77.209) |
| FloodRiskRoute.RingsAreRectangles | floodsense/src/app/api/location/flood-risk/route.ts:31-63 | each ring is an axis-aligned rectangle |
| CommunityUpdatesRoute.FormatTimeAgo | floodsense/src/app/api/location/community-updates/route.ts:5-11 | the label is "Just now" exactly below 60 s |
| CommunityUpdatesRoute.Ago | floodsense/src/app/api/location/community-updates/route.ts:8-10 | a numeral followed by the unit, starting with a digit |
| CommunityUpdatesRoute.TimeAgoBands | floodsense/src/app/api/location/community-updates/route.ts:5-11 | each band writes the whole number of its unit elapsed: 1-59 min, 1-23 hr, at least 1 day |
| CommunityUpdatesRoute.ActiveRows | floodsense/src/app/api/location/community-updates/route.ts:25 | exactly the stored rows with status ACTIVE |
| CommunityUpdatesRoute.ToUpdate | floodsense/src/app/api/location/community-updates/route.ts:33-41 | id, severity, title, message and status copied; district is the district's name; time is the relative time of issuedAt |
| CommunityUpdatesRoute.Updates | floodsense/src/app/api/location/community-updates/route.ts:33-41 | one update per alert, same length and order |
| CommunityUpdatesRoute.Get | floodsense/src/app/api/location/community-updates/route.ts:18-44 | always a 200 success whose updates are the projection of the queried alerts |
| CommunityUpdatesRoute.ParametersIgnored | floodsense/src/app/api/location/community-updates/route.ts:20-22 | lat, lng and radius do not affect the answer |
| CommunityUpdatesRoute.QueryResult | floodsense/src/app/api/location/community-updates/route.ts:24-31 | a result the `findMany` query can return: stored rows, all ACTIVE, newest first, as many as the smaller of ten and the number of active rows, and no active row left out newer than the last one taken; used by `UpdatesOfQuery` and `TenWhenEnough` |
| CommunityUpdatesRoute.UpdatesOfQuery | floodsense/src/app/api/location/community-updates/route.ts:24-41 | over any result the query can return: at most ten updates, all ACTIVE, each from a stored alert, newest first |
| CommunityUpdatesRoute.TenWhenEnough | floodsense/src/app/api/location/community-updates/route.ts:27 | with ten or more active alerts stored, exactly ten updates |
| SignupRoute.MatchesEmailPattern | floodsense/src/app/api/auth/signup/route.ts:6 | `EMAIL_REGEX.test`: `[^\s@]+@[^\s@]+\.[^\s@]+` in full; characterised by `EmailPatternIff` |
| SignupRoute.NormaliseEmail | floodsense/src/app/api/auth/signup/route.ts:26 | the trimmed, lower-cased email, which holds no ASCII capital; `NormalisedEmail` adds the pattern's shape when the pattern accepts it |
| SignupRoute.PatternHasShape | floodsense/src/app/api/auth/signup/route.ts:6 | a string the email regular expression accepts has no white space, exactly one `@` not in front, and a `.` inside the domain |
| SignupRoute.ShapeMatchesPattern | floodsense/src/app/api/auth/signup/route.ts:6 | a string of that shape is accepted by the regular expression |
| SignupRoute.EmailPatternIff | floodsense/src/app/api/auth/signup/route.ts:6 | the regular expression accepts exactly the strings of that shape |
| SignupRoute.Validate | floodsense/src/app/api/auth/signup/route.ts:16-45 | accepted exactly when all three fields are present, the trimmed name is non-empty, the normalised email matches and the password has 8 characters or more; then the trimmed name, normalised email and untrimmed password; otherwise one of the four messages |
| SignupRoute.RejectionMessages | floodsense/src/app/api/auth/signup/route.ts:16-45 | the first failing check picks the message: missing fields, then a name of white space only, then the email, then the password |
| SignupRoute.NormalisedEmail | floodsense/src/app/api/auth/signup/route.ts:26 | a normalised email the pattern accepts has the pattern's shape and no ASCII capital |
| SignupRoute.AcceptedCredentials | floodsense/src/app/api/auth/signup/route.ts:25-45 | what is stored: a non-empty trimmed name, a lower-case email of the pattern's shape, a password of at least 8 characters |
| SignupRoute.SignupRejects | floodsense/src/app/api/auth/signup/route.ts:16-87 | a body that fails validation answers 400 VALIDATION_ERROR with the validation message; a body that is not JSON answers 500 INTERNAL_ERROR "Signup failed", with the parse error as details only in development; neither changes the table |
| SignupRoute.Signup | floodsense/src/app/api/auth/signup/route.ts:12-87 | the table grows by one row exactly on 201, and 201 only for a body that validates |
| SignupRoute.Post | floodsense/src/app/api/auth/signup/route.ts:9-88 | the table's new rows, next id and the answer are those of `Signup` on the old table; the table stays valid |
| SignupRoute.SignupCreatesOne | floodsense/src/app/api/auth/signup/route.ts:60-78 | on 201 the email was free, exactly one user with the next id, normalised credentials and the hashed password is appended, and the answer shows it without the password |
| SignupRoute.RefusalsChangeNothing | floodsense/src/app/api/auth/signup/route.ts:47-58 | every non-201 answer is a failure and leaves the table unchanged; a valid body with a registered email gets 409 |
| SignupRoute.NoDuplicateSignup | floodsense/src/app/api/auth/signup/route.ts:47-58 | the same body signed up twice is refused the second time and emails stay unique |
| UserStore.FindByEmail | floodsense/src/app/api/auth/signup/route.ts:47-49 | a row found is stored and has the email; nothing is found exactly when no row has it |
| UserStore.Without | floodsense/prisma/scripts/remove-plain-passwords.ts:39 | the rows whose id is not deleted, and no others |
| UserStore.WithoutNothing | floodsense/prisma/scripts/remove-plain-passwords.ts:39 | deleting ids no row has leaves the rows as they were |
| UserStore.WithoutKeepsUnique | floodsense/prisma/scripts/remove-plain-passwords.ts:39 | deleting rows keeps ids and emails unique |
| UserStore.UserTable.Create | floodsense/src/app/api/auth/signup/route.ts:63-75 | a taken email is refused with nothing changed; otherwise the new row gets the next id and is appended |
| UserStore.UserTable.DeleteMany | floodsense/prisma/scripts/remove-plain-passwords.ts:39 | the table keeps exactly the rows whose id is not deleted and the count is the number removed |
| LoginRoute.BadSecret | floodsense/src/app/api/auth/login/route.ts:10-18 | `!jwtSecret || jwtSecret.length < 16`; characterised by `SecretCheckedFirst` |
| LoginRoute.LoginRejects | floodsense/src/app/api/auth/login/route.ts:20-85 | with a usable secret, a body that is not JSON answers 500 INTERNAL_ERROR "Login failed", with the parse error as details only in development, and a missing or empty field answers 400 VALIDATION_ERROR "Email and password are required" |
| LoginRoute.Login | floodsense/src/app/api/auth/login/route.ts:7-86 | the body of the answer is a success exactly when the status is 200 |
| LoginRoute.SecretCheckedFirst | floodsense/src/app/api/auth/login/route.ts:10-18 | a missing or short secret answers 500 "Server configuration error" whatever the body, and only then |
| LoginRoute.LoginSucceedsIff | floodsense/src/app/api/auth/login/route.ts:24-76 | 200 exactly when the secret is usable, both fields are present, a user has the normalised email and the password matches; the token is signed over that user's id and email for "24h", and the answer has no password |
| LoginRoute.FailuresLookAlike | floodsense/src/app/api/auth/login/route.ts:39-56 | an unknown email and a wrong password both give 401 "Invalid email or password"; the codes are NOT_FOUND and VALIDATION_ERROR |
| LoginRoute.FindAppended | floodsense/src/app/api/auth/login/route.ts:35-37 | a user appended after rows without its email is the one found by that email |
| LoginRoute.LoginAfterSignup | floodsense/src/app/api/auth/login/route.ts:33-76 | logging in with the email and password of a successful signup succeeds as the new user, given that `compare` accepts a password against its own hash |
| ProtectedRoute.Token | floodsense/src/app/api/auth/protected/route.ts:17 | the token has no white space at either end; behind the prefix it is the rest of the header, trimmed (`TokenIsRestOfHeader`) |
| ProtectedRoute.TokenIsRestOfHeader | floodsense/src/app/api/auth/protected/route.ts:17 | behind the prefix, the token is the rest of the header, trimmed |
| ProtectedRoute.Get | floodsense/src/app/api/auth/protected/route.ts:5-41 | a success exactly when the status is 200, with message "Token is valid" |
| ProtectedRoute.Outcomes | floodsense/src/app/api/auth/protected/route.ts:7-40 | no bearer header gives 401 whatever the secret; then a bad secret gives 500; then 200 with the claims if the token verifies, else 401 "Invalid or expired token" with the verifier's error in development |
| ProtectedRoute.LoginTokenAccepted | floodsense/src/app/api/auth/protected/route.ts:17-32 | a token sent back as "Bearer <token>" that verifies under the secret is accepted and its claims echoed |
| ProtectedRoute.LowerCaseSchemeRefused | floodsense/src/app/api/auth/protected/route.ts:9 | a lower-case "bearer " header is refused as a missing header |
| RemovePlainPasswords.IsBcryptHash | floodsense/prisma/scripts/remove-plain-passwords.ts:12-16 | `/^\$2[aby]\$/.test`; characterised by `BcryptPrefixes` |
| RemovePlainPasswords.BcryptPrefixes | floodsense/prisma/scripts/remove-plain-passwords.ts:12-16 | a value is a bcrypt hash exactly when it starts with `$2a$`, `$2b$` or `$2y$` |
| RemovePlainPasswords.PlainUsers | floodsense/prisma/scripts/remove-plain-passwords.ts:25 | exactly the users whose password is not a bcrypt hash |
| RemovePlainPasswords.HashedUsers | floodsense/prisma/scripts/remove-plain-passwords.ts:39 | the users left are stored users with a bcrypt hash |
| RemovePlainPasswords.PlainIds | floodsense/prisma/scripts/remove-plain-passwords.ts:38 | the ids are exactly those of the selected users |
| RemovePlainPasswords.DeleteKeepsHashed | floodsense/prisma/scripts/remove-plain-passwords.ts:38-39 | when the deleted ids are exactly those of plain-password rows, what is left is every hashed user, in order |
| RemovePlainPasswords.SelectedIff | floodsense/prisma/scripts/remove-plain-passwords.ts:38 | with unique ids, a row's id is selected exactly when its password is not a hash |
| RemovePlainPasswords.PartitionSizes | floodsense/prisma/scripts/remove-plain-passwords.ts:25 | the hashed and the plain users together are the whole table |
| RemovePlainPasswords.Listing | floodsense/prisma/scripts/remove-plain-passwords.ts:34-36 | one line per selected user, in order |
| RemovePlainPasswords.SelectionDeletes | floodsense/prisma/scripts/remove-plain-passwords.ts:38-40 | deleting the selected ids leaves the hashed users and removes as many rows as were selected |
| RemovePlainPasswords.ListUsers | floodsense/prisma/scripts/remove-plain-passwords.ts:34-36 | the loop writes the listing lines |
| RemovePlainPasswords.Run | floodsense/prisma/scripts/remove-plain-passwords.ts:18-43 | with no plain-password users it deletes nothing and reports so; otherwise the table keeps exactly the hashed users, the count is the selection size, and the log is found line, listing, removed line |
| RemovePlainPasswords.SecondRunSelectsNobody | floodsense/prisma/scripts/remove-plain-passwords.ts:25-31 | after a run only hashed users remain, so a second run selects nobody |
| RemovePlainPasswords.NoneSelected | floodsense/prisma/scripts/remove-plain-passwords.ts:25-31 | a table of hashed passwords has no plain-password users |
| RemovePlainPasswords.SignedUpUsersSurvive | floodsense/prisma/scripts/remove-plain-passwords.ts:12-25 | a user signed up while the hash yields bcrypt hashes is among those the script keeps |
| AuthContext.LoadStoredAuth | floodsense/src/context/AuthContext.tsx:28-42 | a session exactly when both entries are non-empty and the user parses with all three fields, and then the stored token and user; otherwise none |
| AuthContext.Persist | floodsense/src/context/AuthContext.tsx:44-52 | both keys are written and every other entry is kept |
| AuthContext.Clear | floodsense/src/context/AuthContext.tsx:54-62 | both keys are removed and every other entry is kept |
| AuthContext.PersistThenLoad | floodsense/src/context/AuthContext.tsx:28-52 | a persisted non-empty token and complete user load back as the same session, given that parsing undoes stringifying |
| AuthContext.IncompleteLoadsNothing | floodsense/src/context/AuthContext.tsx:33-37 | an empty token or a user with a missing field loads as no session |
| AuthContext.ClearThenLoad | floodsense/src/context/AuthContext.tsx:28-62 | after a clear nothing loads, whatever else is stored |
| AuthContext.AuthProvider.constructor | floodsense/src/context/AuthContext.tsx:65 | no user, no token, loading |
| AuthContext.AuthProvider.Hydrate | floodsense/src/context/AuthContext.tsx:67-75 | the state becomes what is stored and loading ends |
| AuthContext.AuthProvider.Login | floodsense/src/context/AuthContext.tsx:77-80 | in a browser the session is persisted; the state is the user and token, not loading |
| AuthContext.AuthProvider.Logout | floodsense/src/context/AuthContext.tsx:82-85 | in a browser the keys are cleared; the state is empty, not loading and not authenticated |
| AuthContext.AuthProvider.IsAuthenticated | floodsense/src/context/AuthContext.tsx:92 | `!!user && !!token`; characterised by `HydratedAuthenticatedIff` |
| AuthContext.HydratedAuthenticatedIff | floodsense/src/context/AuthContext.tsx:92 | after hydration the provider is authenticated exactly when a session was stored |
| AuthContext.LoginSurvivesReload | floodsense/src/context/AuthContext.tsx:64-85 | a login followed by a new provider's hydration restores the same session |
| LocationContext.ErrorMessage | floodsense/src/context/LocationContext.tsx:77-84 | codes 1, 2 and 3 map to their messages and every other code to "Could not get location", each in both directions |
| LocationContext.MapCenter | floodsense/src/context/LocationContext.tsx:127-130 | `[longitude, latitude]` |
| LocationContext.InitialCenter | floodsense/src/context/LocationContext.tsx:13-38 | the initial state centres on `FALLBACK_CENTER` |
| LocationContext.LocationProvider.constructor | floodsense/src/context/LocationContext.tsx:33-43 | the fallback position, not live, loading, no message |
| LocationContext.LocationProvider.Refresh | floodsense/src/context/LocationContext.tsx:54-69 | without geolocation: the fallback, not live, unavailable, "Geolocation not supported"; with it: only the status becomes loading and a request starts |
| LocationContext.LocationProvider.OnPosition | floodsense/src/context/LocationContext.tsx:45-52 | the coordinates are copied, live, ready, no message |
| LocationContext.LocationProvider.OnError | floodsense/src/context/LocationContext.tsx:76-91 | the fallback, not live, denied for code 1 and error otherwise, with the code's message |
| LocationContext.RequestOutcome | floodsense/src/context/LocationContext.tsx:54-99 | after a request the state is live exactly when ready, shows the fallback when not live, is denied exactly for code 1 and has a message exactly on failure |
| LocationContext.StaleMessageWhileLoading | floodsense/src/context/LocationContext.tsx:67 | refreshing after a failure is loading while still carrying the earlier message |
| DashboardContent.FormatTime | floodsense/src/components/dashboard/DashboardContent.tsx:24-31 | a dash with no date; "Just now" below a minute; minutes, then hours; the locale time after a day |
| DashboardContent.FormatTimeBands | floodsense/src/components/dashboard/DashboardContent.tsx:24-31 | the label is "Just now" under a minute, "<m>m ago" for some m in 1-59 under an hour, and "<h>h ago" for some h in 1-23 under a day |
| DashboardContent.MinutesLabelUnit | floodsense/src/components/dashboard/DashboardContent.tsx:28 | the minute label starts with a digit and ends in "m ago" |
| DashboardContent.SeverityBadge | floodsense/src/components/dashboard/DashboardContent.tsx:174-180 | danger exactly for SEVERE or HIGH, warning exactly for MODERATE, info for anything else |
| DashboardContent.Panel | floodsense/src/components/dashboard/DashboardContent.tsx:158-193 | a skeleton exactly while loading; the note exactly with no updates; otherwise the rows of the first five updates, in order |
| DashboardContent.ActiveAlertsStat | floodsense/src/components/dashboard/DashboardContent.tsx:52 | a dash exactly with no payload; otherwise a numeral whose value is the number of updates |
| DashboardContent.StatCountsBeyondPanel | floodsense/src/components/dashboard/DashboardContent.tsx:52-161 | with more than five updates the stat counts all of them while the panel shows five |
| LiveOverviewCard.AppendNew | floodsense/src/components/live-overview-card.tsx:25 | the names already seen stay in front, no duplicates are added, and every name of either list is present |
| LiveOverviewCard.Merge | floodsense/src/components/live-overview-card.tsx:25 | `[...new Set([...DEFAULT_LOCATIONS, ...dbNames])]`; characterised by `MergeShape` |
| LiveOverviewCard.MergeShape | floodsense/src/components/live-overview-card.tsx:7-25 | the merge is the four defaults followed by the new district names in first-occurrence order, without duplicates, holding every name, starting with "Northern Corridor" |
| LiveOverviewCard.MetricsFor | floodsense/src/components/live-overview-card.tsx:36-37 | the entry of a listed name, otherwise Northern Corridor's |
| LiveOverviewCard.MetricsCoverage | floodsense/src/lib/locationData.ts:19-75 | every default location has an entry; an unlisted name shows Northern Corridor's metrics |
| LiveOverviewCard.StatusBadge | floodsense/src/components/live-overview-card.tsx:58-67 | critical is danger, elevated a warning, safe a success, normal informational, each in both directions |
| LiveOverviewCard.OverviewCard.constructor | floodsense/src/components/live-overview-card.tsx:15-17 | the defaults, "Northern Corridor" selected, loading |
| LiveOverviewCard.OverviewCard.Select | floodsense/src/components/live-overview-card.tsx:48 | the selection becomes the picked name |
| LiveOverviewCard.OverviewCard.DistrictsSettled | floodsense/src/components/live-overview-card.tsx:19-34 | with district names the list becomes the merge and a captured selection missing from it resets to the first entry; the selection is kept otherwise; loading ends |
| LiveOverviewCard.SelectionSurvivesLoad | floodsense/src/components/live-overview-card.tsx:19-34 | a selection picked before the response arrives is kept, and the list starts with the defaults and holds every district name |
| ProfilePage.FirstChar | floodsense/src/app/profile/page.tsx:18 | the first character of a piece, nothing for an empty piece |
| ProfilePage.Firsts | floodsense/src/app/profile/page.tsx:18 | one first character per piece, in order |
| ProfilePage.TakeTwo | floodsense/src/app/profile/page.tsx:19 | the first two pieces, or all of them if fewer |
| ProfilePage.ConcatShort | floodsense/src/app/profile/page.tsx:20 | joining at most two strings of at most one character gives at most two characters |
| ProfilePage.GetInitials | floodsense/src/app/profile/page.tsx:15-22 | at most two initials, none a lower-case ASCII letter |
| ProfilePage.EmptyName | floodsense/src/app/profile/page.tsx:15-22 | the empty name has no initials |
| ProfilePage.FirstTwoPieces | floodsense/src/app/profile/page.tsx:19-20 | with two pieces or more, the initials come from the first two |
| ProfilePage.TwoWords | floodsense/src/app/profile/page.tsx:15-22 | two space-free words give their two first letters, upper-cased |
| ProfilePage.ThreeWords | floodsense/src/app/profile/page.tsx:19 | a third word is ignored |
| ProfilePage.LeadingSpace | floodsense/src/app/profile/page.tsx:17-20 | a leading space spends a slot on an empty piece, leaving one initial |

## Left out

- Rendering: JSX, styling and markup. Of the components, the model keeps only the values they show and the decisions behind them.
- Console output: the routes' `console.error` is not modelled. The script's output is the list of lines it writes, and the API error log is a `LogEntry` value.
- Prisma connection management: `$connect`, `$disconnect` and the script's `process.exit(1)` on failure. The database is an in-memory table of rows.
- Cryptography and JSON: these are parameters (see above). The bcrypt cost factor 10 is folded into `hash`. The token lifetime "24h" is passed to `sign` uninterpreted.
- Exceptions the routes catch: only the request body failing to parse is modelled (as `Err`), and it answers through the route's catch. The model does not cover bcrypt or Prisma throwing inside signup and login. It does not cover a unique-constraint failure when two signups race between `findUnique` and `create`.
- `SignupRoute.Validate`: non-string JSON values in the body are not modelled. Each field is either missing or a string, whereas `String(...)` in the source would turn numbers and objects into text.
- `Strings.ToLower`, `Strings.ToUpper`: the case mapping covers ASCII letters only. JavaScript maps all of Unicode.
- `ProfilePage.GetInitials`: the bound of two initials rests on the ASCII-only `Strings.ToUpper`, which maps one character to one. JavaScript's `toUpperCase` can lengthen a character (`"ß"` becomes `"SS"`, `"ﬁ"` becomes `"FI"`), so `getInitials("ßa ßb")` returns `"SSSS"`.
- `SignupRoute.Validate`: the password length counts characters, whereas JavaScript's `.length` counts UTF-16 code units. The two differ outside the Basic Multilingual Plane.
- `FloodRiskRoute.ReadCoordinate`: `parseFloat` is the parsed value given with the parameter (`None` for NaN). Coordinates and offsets are exact reals, not IEEE doubles.
- `DataRefresh.Countdown`: the elapsed time is an exact real. Floating-point rounding of `Date.now()` arithmetic is not modelled.
- Concurrency: `Promise.all`, overlapping fetches and responses arriving out of order are not modelled. Each fetch's settlement is an explicit event (`DataRefresh.RefreshManager.Complete`, `FloodRiskMap.Step`) applied in the order given.
- React scheduling: effect ordering, re-renders and batching are not modelled. A state update takes effect at once, and an effect runs when its event is applied.
- The `usePageVisible` hook is the `hidden` parameter of the visibility handler and the `visible` parameter of the countdown tick. The one-second `setInterval` driving the countdown is one `Tick` call per tick.
- The map's visual details are not modelled: the style JSON, fog, layer paint properties, popup HTML, marker elements and mouse handlers (hover cursor, click-to-popup). Only the creation, removal and updating of map, popups and markers is modelled.
- `FloodRiskMap.Step`: the map component works by mutating refs, but the model is a value transformed by events. Aliasing between refs and engine objects is represented by handles.
- `localStorage` exceptions (quota, private mode), which the source catches silently, are not modelled. Storage is always available.
- `AuthContext.LoadStoredAuth`: the stored user's JSON value types are not modelled. `parse` yields each field as text that is empty exactly when the JSON value is falsy. A numeric id such as `7` becomes the non-empty text `"7"`, so the completeness test agrees with the source's `!user?.id` check. This holds even though the login page stores the id as a number.
- The location provider's geolocation options (`enableHighAccuracy`, timeout, maximum age) are not modelled. The mount effect that calls `refresh` is the constructor followed by `Refresh`.
- `UserStore.FindByEmail`: `findUnique` is modelled as the first row with the email. While emails stay unique (`UserStore.UserTable.Valid`) there is only one such row.
- `ProtectedRoute.Get`: the error object the verifier throws is a string in the failure details.
- The error-code table is only the three codes the core uses; `errorCodes.ts` is not part of this model.
