# RIT Honors housing selection: browser client rules

The client lets an honors student sign in with a Google account, browse the
floors of the honors residence, reserve a room and clear the reservation.
An administrator page lists the named lists the server keeps and shows
whether the housing form is open. This project models the rules the
client's scripts apply, and proves properties about them:

- the error classification (`errorHelper`, the `if(msg)` rule of
  `displayError`, the built-in failure handler of `load`, and the dispatch
  of `current()` and `isOpen()` failures);
- the offline fallbacks of the API wrappers and the default-floor rule of
  `load`;
- the sign-in join, which calls `check` once both API modules have loaded,
  together with the authorization parameters and the signed-in predicate;
- the room styling rules of both floor views;
- the page state that floor loads, room clicks and the clear-reservation
  button change, including the in-place demo reservation;
- the admin list comparator `listSorter` and the in-place sort it drives.

The network (gapi, OAuth, the `d3.json` fetch of the sample file) is modelled
as inputs. Each API method is a `Capability`: `Absent` when the loaded API
lacks the method, or `Present` with the response the server gave. The DOM is
modelled as recorded effects: the text of a label, a disabled flag, the list
of error reports and alerts. An error report is an `Outcome`: the modal's
text, whether the modal opens, and whether a return to the sign-in screen
(`setTimeout(housing.app,0,false)`) was scheduled.

JavaScript values are modelled in `JsValues`. An identifier such as a floor
number, room number or shape id is `Num` or `Str`. Loose equality `==`
converts a string with `Number()` when compared with a number. `String()` of
an integer is its decimal rendering.

Modules:

| module | file | models |
|---|---|---|
| `JsValues` | js_values.dfy | JavaScript values, `String()`/`Number()`, loose `==`, `join`, `toLowerCase` |
| `Rooms` | rooms.dfy | floors and rooms, the shared outline table, the floor-selection loop, the demo reservation loop |
| `Gapi` | gapi.dfy | authorization parameters and responses, module loads, the countdown join |
| `Endpoints` | endpoints.dfy | js/endpoints.js |
| `FloorView` | floor_view.dfy | the page logic js/map.js and js/housing.js share |
| `MapView` | map_view.dfy | the styling rules only js/map.js has |
| `HousingView` | housing_view.dfy | the styling rules only js/housing.js has, compared with the map view's |
| `Admin` | admin.dfy | js/admin.js |
| `Auth` | auth.dfy | js/auth.js |

The two floor views are copies of one another over different namespaces. A
shared rule is defined once in `FloorView`. Its rows below cite both copies.
The handlers take the guard that selects the API as `apiReady`:
`housing.endpoints` in js/map.js, `housing.auth && housing.client` in
js/housing.js.

Where the code and its documentation disagree, the model follows the code:

- The 600 sentinel the wrappers produce takes the `>= 500` branch of
  `errorHelper`. It reads as a server error naming the caller, not as an
  "API not available" message.
- A missing error code is neither 401 nor `>= 500` in `errorHelper`, which
  shows the raw message. In the built-in handler of `load`, a missing code
  fails `code < 500` and gets the server-error text.
- The map view shows "None" both on 404 and on 600.
- The comment on `load` (js/endpoints.js:92-93) says the given floor is used
  only if a floor of that number exists. The code (js/endpoints.js:112-115
  and 139-142) passes any given floor on unchecked. When no floor has that
  number, the page draws no rooms (`Endpoints.GivenFloorIsNotChecked`).

## Model

| member | source | states |
|---|---|---|
| JsValues.NumberEqualsItsString | js/map.js:178 | a numeric floor number loosely equals its decimal string |
| JsValues.IntToStringRoundTrip | js/map.js:347 | `Number(String(i)) == i`: the property-name conversion of a shape id loses nothing |
| JsValues.JoinShowsEach | js/map.js:325 | every element of `join(sep)` appears at its offset, and the separator follows every element but the last |
| JsValues.JoinLength | js/map.js:325 | `join(sep)` ends where its last element ends, so it holds nothing but the elements and separators |
| JsValues.Lower | js/admin.js:236 | `toLowerCase` keeps the length and lower-cases each ASCII letter |
| JsValues.LowerIdempotent | js/admin.js:236 | lower-casing twice equals lower-casing once |
| Rooms.MatchingExact | js/map.js:177-182 | the loop visits exactly the floors whose number equals the requested floor; none when nothing matches |
| Rooms.FloorsToDraw | js/map.js:177-178 | the floor loop collects exactly the matching floors, in order; js/housing.js:133-134 is the same code in the older view |
| Rooms.DrawnRooms | js/map.js:174-186 | the rooms that get a drawn group: a single visited floor has all its rooms drawn; the first visited floor always does; the groups cover the largest visited floor |
| Rooms.DrawnRoomsExact | js/map.js:174-186 | there are exactly as many groups as the largest visited floor has rooms, and group j shows room j of the first visited floor with more than j rooms |
| Rooms.DuplicateNumberHidesRooms | js/map.js:177-186 | floors numbered 4 and "4" both match floor 4, yet of the second floor only the room past the first floor's room count is drawn |
| Rooms.FirstMatch | js/map.js:252-255 | the index found is the first floor equal to the current floor; none exists when it finds none |
| Rooms.DemoReserveChangesOneRoom | js/map.js:251-258 | the demo reservation changes only the occupant count of room i on the first matching floor; with no match nothing changes; a missing room i is the TypeError case |
| Rooms.DemoIncrement | js/map.js:251-257 | the loop with `break` throws exactly when `DemoReserve` fails, and otherwise yields its result; js/housing.js:207-213 is the same code in the older view |
| Gapi.Authorized | js/auth.js:37 | `result && !result.error` holds only when there is a result; `AuthorizedCases` gives the full rule |
| Gapi.AuthorizedCases | js/endpoints.js:85 | `result && !result.error` is false without a result, and true exactly when the error is missing or empty |
| Gapi.TwoLoadsFireOnce | js/endpoints.js:28-32 | with the counter at 2, the join fires once, on the second callback, and never before |
| Endpoints.DisplayError | js/endpoints.js:224-236 | the modal shows the message and opens iff the message is non-empty; the re-auth flag is the caller's |
| Endpoints.ErrorHelper | js/endpoints.js:246-270 | 401: the unauthorized text, `<br><br>`+message appended iff the message contains '@', and re-auth; `>= 500`: the server text with the quoted source or 'generic'; otherwise the raw message; the modal opens iff the text is non-empty |
| Endpoints.SentinelReadsAsServerError | js/endpoints.js:255-261 | the 600 sentinel yields the server text naming the source, and no re-auth |
| Endpoints.RoomsFailure | js/endpoints.js:117-133 | built-in handler: 401 gives the unauthorized text without the account, plus re-auth; another code below 500 gives the raw message; 500 and above, or a missing code, gives the server text for 'rooms()' |
| Endpoints.RoomsFailureVersusErrorHelper | js/endpoints.js:121-131 | the built-in handler agrees with errorHelper(_, 'rooms()') on every code but 401; on 401 its text is a prefix of errorHelper's; on a missing code the two differ |
| Endpoints.Call | js/endpoints.js:161-213 | an absent API method always fails with code 600 and "API Not Available"; a present one yields the API's own response |
| Endpoints.AbsentCallReportsServerError | js/endpoints.js:161-171 | an absent method never succeeds, and errorHelper turns its failure into the server text naming the caller |
| Endpoints.DeliverFloors | js/endpoints.js:139-142 | success gets the floors verbatim and the given floor, or the first floor's number when none is given; no floor and no floors is a TypeError |
| Endpoints.GivenFloorIsNotChecked | js/endpoints.js:111-116 | a given floor is delivered unchanged; when no delivered floor has that number, the page draws no floor |
| Endpoints.RemoteSuccessAsWritten | js/endpoints.js:111-116 | as written, the remote success path throws exactly when no floor is given |
| Endpoints.AsWrittenLosesDefaultFloor | js/endpoints.js:112-113 | with floors delivered and no floor given, the code as written throws where the default-floor rule loads the first floor |
| Endpoints.Load | js/endpoints.js:104-150 | API success and a parsed sample file both go through the default-floor rule; a caller's failure callback gets the raw error; otherwise the built-in handler reports; a failed fetch gives code 600 with the transport error |
| Endpoints.Client.Check | js/endpoints.js:44-52 | stores the app callback and issues one silent request with `immediate:true, hd:"g.rit.edu"` |
| Endpoints.Client.Click | js/endpoints.js:57-65 | issues one interactive request with `immediate:false, authuser:""` and returns false |
| Endpoints.Client.OnAuthorize | js/endpoints.js:70-86 | requests userinfo and publishes `result && !result.error` once, only when an app callback is stored |
| Endpoints.Client.OnUserinfo | js/endpoints.js:72-83 | a userinfo success shows the email; a failure changes nothing, the published value included |
| Endpoints.Login.constructor | js/endpoints.js:34-36 | the counter starts at 2 and the housing and oauth2 modules are requested from the documented roots |
| Endpoints.Login.LoadCallback | js/endpoints.js:28-32 | each callback decrements the counter; exactly one silent request is issued, on the second callback |
| Endpoints.LoginScenario | js/endpoints.js:26-37 | after one callback no request is issued; after two, exactly the silent one |
| FloorView.Color | js/map.js:308-320 | "color-empty" iff no occupants, even at capacity 0; "color-full" iff occupied and at capacity; "color-partial" otherwise; js/housing.js:247-259 is the same code in the older view |
| FloorView.ImgHref | js/map.js:336-338 | the href is "/img/049-", then the floor number as a string, then ".png" |
| FloorView.ImgHrefDistinguishesFloors | js/map.js:336-338 | two floors get the same image iff their numbers render the same |
| FloorView.ImgVisibility | js/map.js:339-345 | "visible" iff the current floor equals the floor's number, else "hidden"; js/housing.js:278-284 is the same code in the older view |
| FloorView.VisibleIffDrawn | js/map.js:159-161 | after a load, a floor's image is visible iff the loop binds that floor's rooms |
| FloorView.OnCurrent | js/map.js:119-131 | success shows the room number and enables clearing; 401 goes to errorHelper with re-auth; 404 and 600 show "None" and disable clearing; anything else reports the server text for 'current()' without re-auth; js/housing.js:73-85 is the same code in the older view |
| FloorView.OfflineShowsNoReservation | js/map.js:126-127 | without the API the page shows no reservation and no error |
| FloorView.NavCleared | js/map.js:80 | `nav.html(null)` removes the sign-in button, the reservation label and the clear button, and touches nothing else |
| FloorView.AfterCurrent | js/map.js:119-131 | the label shows the room number on success, "None" on 404 and 600, and stays empty on a report; clearing is enabled only on success; floors, alerts, reserve requests and the sign-in button are untouched; a report is appended only on a report |
| FloorView.FloorPage.Start | js/map.js:19-49 | the navigation is cleared either way; signed in: the drawing is cleared and the page loads with no floor; success initialises the page and loads the delivered floor; a failure is reported by the built-in handler; not signed in: the sign-in button is shown |
| FloorView.FloorPage.Init | js/map.js:62-131 | with a non-empty floor list, the navigation is cleared and rebuilt and the `current()` response is applied; with none, nothing changes |
| FloorView.ReauthScenario | js/map.js:19-49 | after a sign-out the sign-in button shows and nothing can be cleared; signing in again removes the button and shows the reservation |
| FloorView.FloorPage.Load | js/map.js:145-229 | records the floor and the data; `drawn` holds exactly the matching floors, the ones the loop binds rooms for; js/housing.js:101-185 is the same code in the older view |
| FloorView.FloorPage.ClickRoom | js/map.js:234-260 | API ready: a reserve success loads the returned floors and shows the room; a failure reports errorHelper(_, 'reserve()'); otherwise the demo reservation is applied, and nothing changes when it throws; js/housing.js:190-216 is the same code in the older view |
| FloorView.FloorPage.ClearReservation | js/map.js:265-283 | nothing while disabled; an alert without the API; a success replaces the data, redraws, shows "None" and disables; a failure reports errorHelper(_, 'deleteReservation()'); js/housing.js:221-238 is the same code in the older view |
| MapView.PathKey | js/map.js:353-374 | finds the shape id whose property name is the key, or shows none exists |
| MapView.BgPath | js/map.js:346-352 | the result is the room's own `bgpath` or one of the 21 outlines; `BgPathShapeIds` gives which |
| MapView.BgPathShapeIds | js/map.js:346-352 | a number 0..20 or its decimal string selects that outline; any other value passes through unchanged |
| MapView.Tooltip | js/map.js:323-329 | null exactly when the room carries no names |
| MapView.TooltipShowsEveryName | js/map.js:323-329 | every occupant's name appears in the tooltip, separated by "<br>", and the last name ends the tooltip |
| HousingView.Tooltip | js/housing.js:262-268 | "Nobody" without names; an empty name list shows "" |
| HousingView.TooltipVersusMapView | js/housing.js:262-268 | the older tooltip is the map view's, with "Nobody" where that one is null |
| HousingView.BgPath | js/housing.js:285-331 | a string shape id never matches a numeric `case`; a match yields one of the 21 outlines; `BgPathStrict` gives which |
| HousingView.BgPathStrict | js/housing.js:285-331 | the switch yields outline n exactly for the numbers n in 0..20, and undefined for anything else |
| HousingView.BgPathAgreesWithMapView | js/housing.js:285-331 | wherever the switch finds an outline, the map view's table finds the same one |
| HousingView.BgPathDiffersFromMapView | js/housing.js:285-331 | the string "3" selects an outline only in the map view; a number outside 0..20 passes through there and is undefined here |
| Admin.Reverse | js/admin.js:234 | `reverse()` keeps the length and puts element i at position length-1-i |
| Admin.IndexOf | js/admin.js:236 | `indexOf` gives the first position of the element, or -1 exactly when it is absent |
| Admin.ListSorter | js/admin.js:233-244 | 1 when only a has a truthy key, -1 when only b does, 0 when neither |
| Admin.KnownIndexMirrorsRank | js/admin.js:234-236 | the position in the reversed known lists is 3 minus the rank; an unknown key's -1 ranks after all four |
| Admin.ListSorterIsRankOrder | js/admin.js:233-244 | for two keyed lists the result is exactly the difference of their ranks; in every case it has that difference's sign |
| Admin.RankOfKnown | js/admin.js:234 | known list p ranks p |
| Admin.KnownListsInOrder | js/admin.js:234-236 | room < student < admin < editor list, and a list with any other name after every known one |
| Admin.ListSorterIgnoresCase | js/admin.js:236 | a key compares like its lower-case form |
| Admin.ListSorterAntisymmetric | js/admin.js:233-244 | `cmp(a,b) == -cmp(b,a)` and `cmp(a,a) == 0` |
| Admin.ListSorterTransitive | js/admin.js:233-244 | `cmp(a,b) <= 0` and `cmp(b,c) <= 0` give `cmp(a,c) <= 0` |
| Admin.SortedByRankIsListSorterOrder | js/admin.js:233-244 | in a rank-sorted list no later list compares before an earlier one |
| Admin.SortBy | js/admin.js:30 | sorting in place with a comparator consistent with a rank yields the same elements in rank order |
| Admin.SortLists | js/admin.js:30 | `data.sort(listSorter)` leaves a rank-sorted permutation of the delivered lists |
| Admin.Titles | js/admin.js:245-247 | one header per list, showing its key |
| Admin.Labels | js/admin.js:248-250 | each list's labels show its strings unchanged |
| Admin.SortedTitlesFollowKnownOrder | js/admin.js:125 | after sorting, known-list headers appear in the fixed known order |
| Admin.OnIsOpen | js/admin.js:65-97 | success records isOpen and shows "Housing Form Open" iff open, else "Housing Form Closed"; 401 goes to errorHelper with re-auth; 404 and 600 are silent; anything else reports the server text for 'isOpen()' |
| Admin.AdminPage.Init | js/admin.js:56-127 | with a navigation element, the navigation is cleared (no sign-in button, no switch) and the `isOpen()` response is applied; the headers are always set |
| Admin.AdminPage.Load | js/admin.js:139-154 | the labels show every list's strings |
| Admin.AdminPage.Start | js/admin.js:15-45 | signed in: the lists are sorted in place into a rank-ordered permutation, the `isOpen()` response is applied as in `init`, and the sorted lists give the headers and labels; otherwise the navigation is cleared, only the sign-in button is shown and the data is untouched |
| Admin.RestartScenario | js/admin.js:15-45 | a switch from an earlier start is gone when `isOpen()` later answers 404; signing in after a sign-out removes the sign-in button |
| Auth.SameApplicationFewerParameters | js/auth.js:6-10 | same client id, scope and host as housing.endpoints; the requests lack only `hd` and `authuser` |
| Auth.AuthClient.Check | js/auth.js:25-31 | one silent request with `immediate:true` and no `hd` |
| Auth.AuthClient.Click | js/auth.js:44-51 | one interactive request with `immediate:false`, and returns false |
| Auth.AuthClient.OnAuthorize | js/auth.js:33-41 | publishes `result && !result.error` iff housing.app is defined, and otherwise does nothing |
| Auth.Init.constructor | js/auth.js:20-22 | the counter starts at 2 and both modules are requested |
| Auth.Init.LoadCallback | js/auth.js:14-18 | exactly one silent request, on the second callback |
| Auth.InitScenario | js/auth.js:12-23 | no request after one callback; exactly the silent one after two |
| Auth.ResultScenario | js/auth.js:33-41 | without housing.app nothing is published; with it, the signed-in value is |

## Left out

- FloorView.FloorPage.Load: `drawn` is the list of floors the loop visits. The page state does not keep which rooms are drawn; `Rooms.DrawnRooms` models that on the side. When several floors match, d3 pairs their rooms with the existing groups by position (js/map.js:181-182, js/housing.js:137-138). This rebinding of the data of groups already drawn is not modelled. It changes the room that `clickRoom` receives for such a group.
- FloorView.FloorPage.Start: signed out, start clears the navigation but not the drawing, so rooms drawn before stay clickable. A reserve through them then writes to a reservation label that no longer exists, which d3 ignores. The model records that text anyway.
- `style.title`, the room number text of a group, is part of the drawing and is not modelled.
- Every DOM, d3, jQuery and Foundation effect beyond the recorded texts and flags: selections, SVG elements, the loading spinner, modal opening, the `disabled` class of the floor buttons.
- The network and `d3.json`: responses are inputs; a handler applies its response at once; the scheduling of `setTimeout` is reduced to the re-auth flag.
- `style.r`, `style.endAngle` and `style.titleOffset`, which compute in floating point, and `transform`, `x`, `y`, which only format coordinates.
- Console logging and `console.warn`.
- `style.color(undefined)`, which returns the style function itself; rooms are always given.
- `housing.map.showTooltip` and the tooltip widget: only the tooltip text is modelled.
- `housing.endpoints.loadAdmin` and `isOpen`, which are called but defined in no file of the repository: their responses are inputs.
- The copies of `clickRoom` and `clearReservation` in js/admin.js, which refer to page elements the admin page does not have; and the empty `clickAdd`, `clickRemove` and `clickRemoveIndividual` handlers.
- js/housing.js calls `current`, `reserve`, `deleteReservation`, `errorHelper` and `displayError` on `housing.client`, which js/client.js does not define. The model gives them the js/endpoints.js behaviour.
- js/app.js, js/client.js, Gruntfile.js, server.rb and dist/js/app.js are not part of this model. The first two are routing glue; dist/js/app.js is the build output of the js/ files and is used only for the corrected default-floor rule.
- Endpoints.ErrorHelper: a 401 error without a message would throw at `error.message.contains`; messages are always strings here. `contains` is modelled as a substring test.
- JsValues.StringToNumber: `Number()` is modelled on the empty string and optional '-' plus decimal digits, with anything else not a number; a leading '+' (`Number("+4")` is 4), "Infinity", whitespace, fractions, exponents and hexadecimal are not modelled, and all of them read as not a number.
- JsValues.Lower: `toLowerCase` lower-cases ASCII letters only.
- Rooms.DemoIncrement: the demo branch mutates the floor objects in place. The model returns a new floor list that the page stores, so aliasing between `currentData` and other references to the same floors is not captured.
- FloorView.FloorPage.ClickRoom: the room number sent to `reserve` is recorded, but the server's response is an input and is not tied to it.
- Admin.SortBy: `Array.prototype.sort`'s algorithm is unspecified; the model sorts by insertion. Any sort consistent with the comparator yields the same order up to ties between lists of equal rank.
- Auth.AuthClient.OnAuthorize: housing.app's own behaviour is not part of this model; only the value passed to it is recorded.

## Findings

| source | as written | input that shows it | evidently intended | confidence | as-written member | corrected member |
|---|---|---|---|---|---|---|
| js/endpoints.js:113 | when the API delivers the floors and no floor was requested, the default floor is read from `jsonobj`, a name not in scope on this path, so the success handler throws a ReferenceError; `housing.map.start` always calls `load()` without a floor, so the signed-in map view never loads from the API | `load(undefined)` with the API's `rooms` returning a non-empty floor list | default to the number of the first delivered floor, as dist/js/app.js:113 does | high: not executed | Endpoints.AsWrittenLosesDefaultFloor | Endpoints.DeliverFloors |
