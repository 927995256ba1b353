# instacircle core in Dafny

This project models the core of instacircle, a "find people nearby"
location-sharing web application. It covers:

- **the nearby query** (`GET /api/users/nearby`). It validates the query
  string, then asks the store for at most fifty candidate users. A candidate
  is someone other than the viewer whose location is active and no more than
  an hour old, who allows nearby search and whose visibility is not PRIVATE.
  The query then drops candidates beyond the radius, projects each remaining
  one into a response entry and sorts by rounded distance (module `Nearby`).
- **the three write/read routes**:
  - the location upsert and read (`LocationRoute`);
  - privacy-settings get-or-create and partial upsert (`PrivacyRoute`);
  - user creation with its default settings, and user read (`UsersRoute`).

  Each route is a function from the tables and the request to the response
  and the new tables. `Store.Database` is a class holding the three tables.
  Its handler methods update them in place, and each is proved to have
  exactly the effect of its route function.
- **the client polling service** (`Polling.LocationPollingService`). It
  covers starting, stopping and restarting the polling loop, and what one
  poll cycle does. The service runs against a platform (device position,
  HTTP, timers). Each answer the platform gives is a parameter. What the
  service asks of the platform and hands to its callbacks is appended to an
  effect trace, in order. The pure functions `Start`, `Stop`, `Cycle` and
  `Report` describe a call's effects on a snapshot of the service's fields.
- **the client position watcher** (`Watch.LocationService`). One platform
  watch is shared by a list of subscriber callbacks. It is opened with the
  first subscriber and cleared when the last one leaves.
- **`formatDistance`** (`Format`): whole metres below a kilometre,
  kilometres with one decimal from there on.

JavaScript semantics the handlers rely on are written out in `Common`:

- truthiness: `""`, `0` and NaN count as missing;
- `Math.round` rounds halves up;
- `?? true` falls back on a missing value only;
- an omitted field in an update leaves its column alone (`LocationRoute.Field`).

The haversine distance is a function-typed parameter. Nothing is assumed
about it, so the proved properties hold for any distance function.

Where the design description and the code disagree, the model follows the
code:

- a non-positive radius is not rejected. It simply admits nothing beyond
  distance 0.
- the fifty-row cap is applied by the store query, before the radius filter
  and the sort. It is not applied after sorting, so nearer users can be
  dropped when more than fifty match.
- ties in distance are not broken by id. `Array.prototype.sort` is stable,
  so equal distances keep the store's order.
- a poll cycle does not skip delivery when a call fails. A failed location
  POST is logged and the location is still delivered. A failed nearby fetch
  is logged and `[]` is delivered.

## Model

| member | source | states |
|---|---|---|
| Common.Round | src/app/api/users/nearby/route.ts:77 | Math.round: the integer within half a unit of the value, halves going up |
| Common.DefaultSettings | src/app/api/users/route.ts:24-32 | the settings every user starts with: FRIENDS, distance, last-seen and nearby search all on |
| Common.Status.Code | src/app/api/users/location/route.ts:48-59 | the error classes map to 400, 404 and 500, and only BadRequest is 400 and only NotFound is 404 |
| Nearby.ParseQuery | src/app/api/users/nearby/route.ts:28-35 | 400 exactly when latitude or longitude is missing, NaN or zero (the equator and prime meridian are refused); radius defaults to 1000; the viewer is the given userId, or "" without one |
| Nearby.Matching | src/app/api/users/nearby/route.ts:38-51 | the filtered rows are exactly the candidates in the scan: not the viewer, active, seen within the hour, nearby search allowed, not PRIVATE |
| Nearby.FetchCandidates | src/app/api/users/nearby/route.ts:38-57 | at most fifty rows, every one a candidate; when fewer than fifty come back, no candidate is missing |
| Nearby.Project | src/app/api/users/nearby/route.ts:61-92 | an entry exists iff the row has a location within the radius; its fields are the user's and location's, its distance the rounded distance (so at most the radius), its privacy the settings row's fields |
| Nearby.Survivors | src/app/api/users/nearby/route.ts:60-93 | every kept entry is the projection of some row and every row's projection is kept |
| Nearby.Insert | src/app/api/users/nearby/route.ts:94 | inserting into a sorted list keeps it sorted and adds exactly the new entry |
| Nearby.SortByDistance | src/app/api/users/nearby/route.ts:94 | the result is sorted by distance and is a permutation of the input |
| Nearby.Get | src/app/api/users/nearby/route.ts:25-96 | the handler fails exactly when the query is refused, and then with 400 |
| Nearby.GetSound | src/app/api/users/nearby/route.ts:38-96 | the response holds at most fifty entries, is sorted, is a permutation of the radius survivors, and each entry projects a candidate row |
| Nearby.GetVisibility | src/app/api/users/nearby/route.ts:39-50 | no response entry is the viewer, PRIVATE, inactive, stale or beyond the radius |
| Nearby.GetComplete | src/app/api/users/nearby/route.ts:56-93 | with at most fifty candidates, every candidate within the radius is in the response |
| Nearby.MatchingUnique | src/app/api/users/nearby/route.ts:38-51 | filtering a scan without repeated users yields no repeated users |
| Nearby.SurvivorsUnique | src/app/api/users/nearby/route.ts:60-93 | projecting rows without repeated users yields entries without repeated users |
| Nearby.InsertUnique | src/app/api/users/nearby/route.ts:94 | inserting a new user into a list without repeats creates no repeat |
| Nearby.SortUnique | src/app/api/users/nearby/route.ts:94 | sorting creates no repeated users |
| Nearby.GetUnique | src/app/api/users/nearby/route.ts:38-94 | a scan without repeated users gives a response without repeated users |
| LocationRoute.Upsert | src/app/api/users/location/route.ts:18-35 | the user's row is created or overwritten, active and stamped now, with the given coordinates; an existing row keeps its id; omitted accuracy keeps the stored one, null clears it; other users' rows untouched |
| LocationRoute.Post | src/app/api/users/location/route.ts:5-47 | 400 with nothing written exactly when the user id, latitude or longitude is absent, empty or zero; otherwise the upsert, answering with the stored row |
| LocationRoute.Get | src/app/api/users/location/route.ts:63-98 | 400 without a user id, 404 without a stored row, else the row with its user's id, name and avatar when that user exists |
| LocationRoute.PostThenGet | src/app/api/users/location/route.ts:5-98 | after an accepted POST, GET returns exactly the row POST answered with |
| LocationRoute.PostTwiceKeepsLater | src/app/api/users/location/route.ts:18-35 | two accepted POSTs for one user leave one row with the later coordinates and time under the first id |
| PrivacyRoute.ParseVisibility | src/app/api/users/privacy/route.ts:66-73 | exactly the three enum names are accepted, each as its own value |
| PrivacyRoute.GetOrCreate | src/app/api/users/privacy/route.ts:5-32 | 400 without a user id; a stored row is returned without a write; otherwise the defaults are created and returned |
| PrivacyRoute.Merge | src/app/api/users/privacy/route.ts:63-78 | on update, given fields replace stored ones and the others stay; on create, a falsy visibility gives FRIENDS and a missing boolean gives true; an unknown visibility name is refused |
| PrivacyRoute.Put | src/app/api/users/privacy/route.ts:48-80 | 400 without a user id; 500 with nothing written when the visibility is refused; otherwise the merged row is written under the user and returned |
| PrivacyRoute.GetIdempotent | src/app/api/users/privacy/route.ts:5-32 | a second GET returns what the first did and writes nothing |
| PrivacyRoute.PutThenGet | src/app/api/users/privacy/route.ts:5-80 | after an accepted PUT, GET returns the row PUT answered with and writes nothing |
| PrivacyRoute.EmptyPutKeepsRow | src/app/api/users/privacy/route.ts:63-78 | a PUT with no field leaves an existing row unchanged |
| PrivacyRoute.EmptyPutCreatesDefaults | src/app/api/users/privacy/route.ts:71-78 | on a user without settings, a PUT with no field creates the same defaults as GET |
| UsersRoute.Post | src/app/api/users/route.ts:5-53 | 400 with nothing written without a name or email; otherwise the user is written, and the answer is 500 exactly when the settings write fails, the user staying; on success the default settings are written |
| UsersRoute.Get | src/app/api/users/route.ts:56-85 | 400 without a user id, 404 for an unknown user, else the user with its location and settings rows exactly when they exist |
| UsersRoute.PostThenGet | src/app/api/users/route.ts:5-85 | a created user reads back as created, with the default settings |
| UsersRoute.FailedSettingsLeavesUser | src/app/api/users/route.ts:15-32 | when the settings write fails the caller sees 500 yet the user exists, without settings |
| Store.Database.PostLocation | src/app/api/users/location/route.ts:5-47 | the in-place handler has exactly the effect and response of the location POST, other tables untouched, keys kept consistent |
| Store.Database.GetPrivacy | src/app/api/users/privacy/route.ts:5-32 | the in-place handler has exactly the effect and response of the settings GET |
| Store.Database.PutPrivacy | src/app/api/users/privacy/route.ts:48-80 | the in-place handler has exactly the effect and response of the settings PUT |
| Store.Database.PostUser | src/app/api/users/route.ts:5-53 | the in-place handler has exactly the effect and response of the user POST |
| Polling.PostLocation | src/lib/location-polling.ts:110-133 | nothing without a user; otherwise the POST for that user and position, followed by one logged error exactly when the POST fails, and nothing else |
| Polling.FetchNearby | src/lib/location-polling.ts:135-153 | nothing and `[]` without a user; otherwise a request with radius 2000000, and `[]` after a failure |
| Polling.Report | src/lib/location-polling.ts:156-164 | nothing without a user; never arms a timer |
| Polling.ReportTrace | src/lib/location-polling.ts:156-164 | with a user and both callbacks, the effects are POST, location callback (even after a failed POST), nearby request, nearby callback (with `[]` after a failed fetch) |
| Polling.Cycle | src/lib/location-polling.ts:58-108 | nothing unless polling with a truthy user; nothing without a geolocation API; the device query and a logged error when the query fails; otherwise the query and then the report; never arms a timer |
| Polling.Stop | src/lib/location-polling.ts:47-56 | every field is reset and the timer, if any, is cleared |
| Polling.Start | src/lib/location-polling.ts:18-45 | a no-op when already polling for the same user; otherwise polling for the new user with its callbacks and the new timer, the effects being the running timer's clear (if any), then exactly one cycle for the new user, then the arm |
| Polling.StartArmsOneTimer | src/lib/location-polling.ts:18-45 | a start that does something arms exactly one timer, after clearing the running one first; the arm is its last effect in this model, where the first cycle is not split at its awaits |
| Polling.StopIdempotent | src/lib/location-polling.ts:47-56 | stopping a stopped service changes nothing and clears nothing |
| Polling.RestartIsStopThenStart | src/lib/location-polling.ts:29-44 | starting for another user is a stop followed by a start from idle |
| Polling.StartTwiceArmsOnce | src/lib/location-polling.ts:24-27 | a repeated start for the same user arms no second timer and changes nothing |
| Polling.LocationPollingService.GetPollingStatus | src/lib/location-polling.ts:167-172 | the status is the current user, and says polling exactly when there is one |
| Polling.LocationPollingService.StartPolling | src/lib/location-polling.ts:18-45 | the fields and effect trace change as `Start` says, keeping the consistency invariant |
| Polling.LocationPollingService.Launch | src/lib/location-polling.ts:33-44 | from idle: install, poll once, arm the timer, as `Start` says |
| Polling.LocationPollingService.StopPolling | src/lib/location-polling.ts:47-56 | the fields and trace change as `Stop` says |
| Polling.LocationPollingService.Poll | src/lib/location-polling.ts:58-78 | appends exactly the cycle's effects |
| Polling.LocationPollingService.UpdateLocationOnServer | src/lib/location-polling.ts:110-133 | appends exactly `PostLocation`'s effects |
| Polling.LocationPollingService.FetchNearbyUsers | src/lib/location-polling.ts:135-153 | appends `FetchNearby`'s effects and returns its users |
| Polling.LocationPollingService.UpdateLocationManually | src/lib/location-polling.ts:156-164 | appends exactly the report's effects |
| Watch.RemoveAll | src/lib/location.ts:71-72 | the callback is gone, every other callback keeps its count, and the length drops by the number removed |
| Watch.RemoveAllAppend | src/lib/location.ts:71-72 | removal keeps order: it distributes over concatenation |
| Watch.RemoveAllAbsent | src/lib/location.ts:71-72 | removing a callback that is not subscribed changes nothing |
| Watch.SubscribeThenUnsubscribe | src/lib/location.ts:44-72 | subscribing a new callback and then unsubscribing it restores the list |
| Watch.LocationService.StartWatching | src/lib/location.ts:44-68 | the callback is appended; the platform watch is registered only when none is open; a watch is open iff someone is subscribed |
| Watch.LocationService.StopWatching | src/lib/location.ts:70-81 | the callback (or everyone) is removed; the watch is cleared exactly when nobody is left |
| Watch.LocationService.Deliver | src/lib/location.ts:56 | each subscriber is handed the position once, in subscription order |
| Format.NatToString | src/lib/location.ts:105 | the numeral is non-empty decimal digits without a leading zero |
| Format.ParseNatToString | src/lib/location.ts:105 | reading a numeral back gives the number it was written from |
| Format.NatToStringInjective | src/lib/location.ts:105 | distinct numbers get distinct numerals |
| Format.FormatDistance | src/lib/location.ts:103-109 | the text ends in "km" exactly from 1000 metres on, in "m" otherwise |
| Format.FormatMetres | src/lib/location.ts:104-105 | below a kilometre, the text is digits and "m", reading back within half a metre of the distance |
| Format.FormatKilometres | src/lib/location.ts:106-107 | from a kilometre on, the text is digits, a point, a digit and "km", reading back within 50 metres |
| Format.JustUnderOneKilometre | src/lib/location.ts:104-105 | 999.6 metres is displayed as "1000m": rounding happens after the unit is chosen |
| Format.KilometreExamples | src/lib/location.ts:106-107 | 1000 displays as "1.0km" and 1250 as "1.3km" (a tie rounds up) |

## Left out

- The haversine formula. It is a parameter of the nearby query: real trigonometry is not available, and nothing proved depends on its shape.
- `calculateDistance` in the location service, for the same reason.
- NaN and fractional radius values: the radius is modelled as the integer parseInt produced.
- Infinity and non-finite coordinates.
- The device geolocation API, `getCurrentLocation`, `isLocationPermissionGranted` and `requestLocationPermission`. They are platform calls; in the polling service their answers are parameters (`CycleOutcome`).
- Timing. The interval itself is recorded only as the `TimerArmed` effect. Overlapping cycles, later timer ticks and responses arriving out of order are not modelled.
- Polling.LocationPollingService.StartPolling: the first cycle's asynchronous continuation is collapsed into the call itself. So a stop that lands while the cycle is in flight is not modelled. The order is also changed: in the code only the device query is issued before `setInterval`, and the POST, both callbacks and the nearby fetch of that first cycle come after the timer is armed. In the model every effect of the first cycle comes before `TimerArmed`.
- Callbacks that throw. Callbacks are assumed to return normally; in the source the poll's catch would log such an exception.
- HTTP and JSON plumbing: the URL, the headers, the message texts and the JSON encoding of dates.
- Storage faults other than the modelled ones: the user-creation settings write and a refused visibility name.
- The schema's foreign-key checks. The schema is not part of this model, so a location or settings row for an unknown user is accepted.
- A JSON null in a privacy PUT body is treated like an omitted field.
- Generated record ids and `createdAt` are parameters (`freshId`, `newId`, `now`), not store internals.
- Format.FormatDistance: does not model floating-point artefacts of `toFixed`, or its exponential form for values of 1e21 and more. The model rounds the exact real distance.
- Nearby.SortByDistance: does not state that the sort is stable. Only sortedness and permutation are proved.
- FRIENDS visibility is not distinguished from PUBLIC, as in the code: no friendship relation exists.
- The UI components and the singletons' `getInstance`.
- Polling.LocationPollingService.StopPolling: `clearInterval` is called whenever a handle is stored. Platform handles are never zero, so truthiness of the handle is not modelled.
