/** The page logic housing.map (map.js) and the older `housing` namespace
    (housing.js) share line for line: the occupancy colour, the floor image
    rules, the reservation display driven by `current()`, and the page state
    that floor loads, room clicks and the clear-reservation button change.
    The two copies differ only in the guard that decides whether the API is
    used, which the handlers take as `apiReady`: `housing.endpoints` in
    map.js, `housing.auth && housing.client` in housing.js. The drawing
    itself is not modelled; `drawn` records the floors whose rooms the load
    loop binds to the room groups (Rooms.DrawnRooms says which rooms that
    draws). */
module FloorView {
  import opened JsValues
  import opened Rooms
  import opened Endpoints

  const ColorEmpty: string := "color-empty"
  const ColorPartial: string := "color-partial"
  const ColorFull: string := "color-full"

  /** style.color: the occupancy class of a room. An empty room is empty even
      when its capacity is 0. */
  function Color(d: Room): (c: string)
    ensures c == ColorEmpty || c == ColorPartial || c == ColorFull
    ensures c == ColorEmpty <==> d.occupants == 0
    ensures c == ColorFull <==> d.occupants != 0 && d.occupants == d.capacity
  {
    if 0 == d.occupants then ColorEmpty
    else if d.occupants == d.capacity then ColorFull
    else ColorPartial
  }

  /** style.imghref: the image of a floor. */
  function ImgHref(f: Floor): (h: string)
    ensures |h| == 13 + |ToString(f.number)|
    ensures h[..9] == "/img/049-" && h[9..|h| - 4] == ToString(f.number) && h[|h| - 4..] == ".png"
  {
    "/img/049-" + ToString(f.number) + ".png"
  }

  /** Floors whose numbers render differently get different images. */
  lemma ImgHrefDistinguishesFloors(a: Floor, b: Floor)
    ensures ImgHref(a) == ImgHref(b) <==> ToString(a.number) == ToString(b.number)
  {
    if ImgHref(a) == ImgHref(b) {
      var p, sa, sb := "/img/049-", ToString(a.number), ToString(b.number);
      assert (p + sa + ".png")[|p|..|p| + |sa|] == sa;
      assert (p + sb + ".png")[|p|..|p| + |sb|] == sb;
    }
  }

  /** style.imgvisibility: a floor's image is visible iff its number equals
      the current floor. */
  function ImgVisibility(currentFloor: Option<Ident>, f: Floor): (v: string)
    ensures v == "visible" || v == "hidden"
    ensures v == "visible" <==> currentFloor.Some? && LooseEq(currentFloor.value, f.number)
  {
    if currentFloor.Some? && LooseEq(currentFloor.value, f.number) then "visible" else "hidden"
  }

  /** After a load, the visible floor images are exactly those of the floors
      the load loop binds rooms for. */
  lemma VisibleIffDrawn(data: seq<Floor>, floor: Option<Ident>, f: Floor)
    requires f in data
    ensures ImgVisibility(floor, f) == "visible" <==> f in Matching(data, floor)
  {
    MatchingExact(data, floor);
    if floor.Some? {
      LooseEqSymmetric(floor.value, f.number);
    }
  }

  /** What the `current()` response does to the reservation display. */
  datatype CurrentEffect =
    | ShowReservation(roomNumber: Ident)   // show the number, enable clearing
    | ShowNone                             // show "None", disable clearing
    | Report(outcome: Outcome)             // an error message

  /** The handlers `init` passes to `current().then`. */
  function OnCurrent(resp: Result<Ident, ApiError>): (e: CurrentEffect)
    ensures e.ShowReservation? <==> resp.Ok?
    ensures e.ShowReservation? ==> e.roomNumber == resp.value
    ensures e.ShowNone? <==> resp.Err? && (resp.error.code == Some(404) || resp.error.code == Some(600))
    ensures e.Report? ==> (e.outcome.reauthRequested <==> resp.error.code == Some(401))
    ensures e.Report? && resp.error.code == Some(401) ==> e.outcome == ErrorHelper(resp.error, "current()")
    ensures e.Report? && resp.error.code != Some(401) ==>
      e.outcome == DisplayError(ServerError + "'current()'", false)
  {
    match resp
    case Ok(n) => ShowReservation(n)
    case Err(error) =>
      if error.code == Some(401) then Report(ErrorHelper(error, "current()"))
      else if error.code == Some(404) || error.code == Some(600) then ShowNone
      else Report(DisplayError(ServerError + "'current()'", false))
  }

  /** Without the API, `current()` fails with 600 and the page quietly shows
      no reservation. */
  lemma OfflineShowsNoReservation()
    ensures OnCurrent(Call<Ident>(Absent)) == ShowNone
  {
  }

  /** The state a view keeps in its namespace, as one value. */
  datatype PageView = PageView(
    currentFloor: Option<Ident>,
    currentData: seq<Floor>,
    drawn: seq<Floor>,            // floors the load loop binds rooms for
    reservationText: string,      // the current-reservation label
    clearDisabled: bool,          // the clear-reservation button's disabled class
    reports: seq<Outcome>,        // error reports, in order
    alerts: seq<string>,          // window.alert calls
    reserveRequests: seq<Ident>,  // room numbers sent to the API's reserve
    signInShown: bool)            // the sign-in button in the navigation

  /** The page after `nav.html(null)`: the sign-in button, the reservation
      label and the clear button are gone. A missing label reads as the
      empty text and a missing button as a disabled one, which no click can
      reach. */
  function NavCleared(v: PageView): (w: PageView)
    ensures !w.signInShown && w.reservationText == "" && w.clearDisabled
    ensures w.(signInShown := v.signInShown, reservationText := v.reservationText,
               clearDisabled := v.clearDisabled) == v
  {
    v.(signInShown := false, reservationText := "", clearDisabled := true)
  }

  /** The page after the `current()` response of `init` is applied. */
  function AfterCurrent(v: PageView, e: CurrentEffect): (w: PageView)
    ensures w.clearDisabled <==> !e.ShowReservation?
    ensures e.ShowReservation? ==> w.reservationText == ToString(e.roomNumber)
    ensures e.ShowNone? ==> w.reservationText == "None"
    ensures e.Report? ==> w.reservationText == ""
    ensures w.currentFloor == v.currentFloor && w.currentData == v.currentData && w.drawn == v.drawn
    ensures w.reports == v.reports + (if e.Report? then [e.outcome] else [])
    ensures w.alerts == v.alerts && w.reserveRequests == v.reserveRequests
    ensures w.signInShown == v.signInShown
  {
    match e
    case ShowReservation(n) => v.(reservationText := ToString(n), clearDisabled := false)
    case ShowNone => v.(reservationText := "None", clearDisabled := true)
    case Report(o) => v.(reservationText := "", clearDisabled := true, reports := v.reports + [o])
  }

  class FloorPage {
    var currentFloor: Option<Ident>
    var currentData: seq<Floor>
    var drawn: seq<Floor>
    var reservationText: string
    var clearDisabled: bool
    var reports: seq<Outcome>
    var alerts: seq<string>
    var reserveRequests: seq<Ident>
    var signInShown: bool

    ghost function View(): PageView
      reads this
    {
      PageView(currentFloor, currentData, drawn, reservationText, clearDisabled, reports, alerts,
               reserveRequests, signInShown)
    }

    constructor ()
      ensures View() == PageView(None, [], [], "", true, [], [], [], false)
    {
      currentFloor, currentData, drawn := None, [], [];
      reservationText, clearDisabled := "", true;
      reports, alerts, reserveRequests, signInShown := [], [], [], false;
    }

    /** housing.map.start: it clears the navigation either way. Signed in, it
        also clears the drawing, loads the floors with no floor given and, on
        success, initialises the page and loads the delivered floor; the
        built-in handler reports a failure. Not signed in, it shows the
        sign-in button. */
    method Start(authorized: bool, rooms: Capability<seq<Floor>>, sample: SampleFetch,
                 current: Capability<Ident>)
      modifies this
      ensures !authorized ==> View() == NavCleared(old(View())).(signInShown := true)
      ensures authorized ==> match Endpoints.Load(None, false, rooms, sample)
        case Loaded(floors, f) => View() == AfterCurrent(NavCleared(old(View())), OnCurrent(Call(current))).(
          currentFloor := Some(f), currentData := floors, drawn := Matching(floors, Some(f)))
        case Reported(o) => View() == NavCleared(old(View())).(drawn := [], reports := old(reports) + [o])
        case _ => View() == NavCleared(old(View())).(drawn := [])
    {
      signInShown, reservationText, clearDisabled := false, "", true;
      if authorized {
        drawn := [];
        match Endpoints.Load(None, false, rooms, sample)
        case Loaded(floors, f) =>
          Init(floors, current);
          Load(floors, Some(f));
        case Reported(o) =>
          reports := reports + [o];
        case _ =>
      } else {
        signInShown := true;
      }
    }

    /** The navigation part of `init`: with a non-empty floor list it clears
        the navigation, creates the reservation label and the disabled clear
        button, asks `current()` and applies its response. */
    method Init(data: seq<Floor>, current: Capability<Ident>)
      modifies this
      ensures |data| == 0 ==> View() == old(View())
      ensures |data| > 0 ==> View() == AfterCurrent(NavCleared(old(View())), OnCurrent(Call(current)))
    {
      if |data| > 0 {
        signInShown, reservationText, clearDisabled := false, "", true;
        match OnCurrent(Call(current))
        case ShowReservation(n) =>
          reservationText, clearDisabled := ToString(n), false;
        case ShowNone =>
          reservationText, clearDisabled := "None", true;
        case Report(o) =>
          reports := reports + [o];
      }
    }

    /** load: records the floor and the data for the click handlers and draws
        the rooms of every floor whose number equals `floor`. */
    method Load(data: seq<Floor>, floor: Option<Ident>)
      modifies this
      ensures View() == old(View()).(currentFloor := floor, currentData := data, drawn := Matching(data, floor))
    {
      currentFloor := floor;
      currentData := data;
      drawn := FloorsToDraw(data, floor);
    }

    /** clickRoom on room `i` of the drawn floor, whose datum is `d`. With
        the API ready it reserves through it; otherwise the demo branch counts
        one more occupant in the first floor matching the current one and
        redraws. */
    method ClickRoom(d: Room, i: nat, apiReady: bool, reserve: Capability<seq<Floor>>)
      modifies this
      ensures apiReady ==> match Call(reserve)
        case Ok(floors) => View() == old(View()).(
          currentData := floors, drawn := Matching(floors, old(currentFloor)),
          reservationText := ToString(d.number), clearDisabled := false,
          reserveRequests := old(reserveRequests) + [d.number])
        case Err(e) => View() == old(View()).(
          reports := old(reports) + [ErrorHelper(e, "reserve()")],
          reserveRequests := old(reserveRequests) + (if reserve.Present? then [d.number] else []))
      ensures !apiReady ==> match DemoReserve(old(currentData), old(currentFloor), i, d.occupants + 1)
        case Some(u) => View() == old(View()).(currentData := u, drawn := Matching(u, old(currentFloor)))
        case None => View() == old(View())
    {
      if apiReady {
        if reserve.Present? {
          reserveRequests := reserveRequests + [d.number];
        }
        match Call(reserve)
        case Ok(floors) =>
          Load(floors, currentFloor);
          reservationText, clearDisabled := ToString(d.number), false;
        case Err(e) =>
          reports := reports + [ErrorHelper(e, "reserve()")];
      } else {
        var updated, thrown := DemoIncrement(currentData, currentFloor, i, d.occupants + 1);
        if !thrown {
          Load(updated, currentFloor);
        }
      }
    }

    /** clearReservation: nothing while the button is disabled; otherwise
        deletes the reservation through the API and loads the floors it
        returns, or alerts when the API is not ready. */
    method ClearReservation(apiReady: bool, delete: Capability<seq<Floor>>)
      modifies this
      ensures old(clearDisabled) ==> View() == old(View())
      ensures !old(clearDisabled) && !apiReady ==>
        View() == old(View()).(alerts := old(alerts) + ["API not available"])
      ensures !old(clearDisabled) && apiReady ==> match Call(delete)
        case Ok(floors) => View() == old(View()).(
          currentData := floors, drawn := Matching(floors, old(currentFloor)),
          reservationText := "None", clearDisabled := true)
        case Err(e) => View() == old(View()).(
          reports := old(reports) + [ErrorHelper(e, "deleteReservation()")])
    {
      if !clearDisabled {
        if apiReady {
          match Call(delete)
          case Ok(floors) =>
            Load(floors, currentFloor);
            reservationText, clearDisabled := "None", true;
          case Err(e) =>
            reports := reports + [ErrorHelper(e, "deleteReservation()")];
        } else {
          alerts := alerts + ["API not available"];
        }
      }
    }
  }

  /** The way back after a 401: `housing.app(false)` shows the sign-in
      button and no clear button, and signing in again removes the button
      and shows the reservation anew. */
  method ReauthScenario(n: Ident) returns (outShowsSignIn: bool, outCanClear: bool,
                                           inShowsSignIn: bool, inText: string, inCanClear: bool)
    ensures outShowsSignIn && !outCanClear
    ensures !inShowsSignIn && inText == ToString(n) && inCanClear
  {
    var p := new FloorPage();
    var floors := [Floor(Num(4), [])];
    p.Start(true, Present(Ok(floors)), Parsed([]), Present(Ok(n)));
    p.Start(false, Absent, Parsed([]), Absent);
    outShowsSignIn, outCanClear := p.signInShown, !p.clearDisabled;
    p.Start(true, Present(Ok(floors)), Parsed([]), Present(Ok(n)));
    inShowsSignIn, inText, inCanClear := p.signInShown, p.reservationText, !p.clearDisabled;
  }
}
