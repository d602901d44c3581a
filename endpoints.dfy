/** housing.endpoints: the sign-in flow (module loads, silent and interactive
    authorization, publication of the signed-in state), the facade over the
    housing API with its offline fallbacks, and the error messages shown to
    the user. Network calls are inputs: each wrapper takes the response the
    API (or the sample-file fetch) delivered. */
module Endpoints {
  import opened JsValues
  import opened Rooms
  import opened Gapi

  const Hostname: string := "https://rithonorshousing.appspot.com"
  const ClientId: string := "180343920180-41f9qsqdcf9it1poolqtqages644lgs3.apps.googleusercontent.com"
  const Scopes: string := "https://www.googleapis.com/auth/userinfo.email"
  const ServerError: string :=
    "A server error has occurred. Please contact the developers of this website and report an error with "
  const UnauthorizedError: string :=
    "You are not authorized to register for housing. Please check that you are logged in with an RIT Google account"

  /** The `error` member of a failed API response; `code` may be missing. */
  datatype ApiError = ApiError(code: Option<int>, message: string)

  /** The error the wrappers make up when the loaded API lacks a method. */
  const NotAvailable: ApiError := ApiError(Some(600), "API Not Available")

  /** What reporting an error leaves behind: the text put in the error modal,
      whether the modal was opened, and whether a return to the sign-in screen
      (housing.app(false) on a zero-delay timer) was scheduled. */
  datatype Outcome = Outcome(text: string, showModal: bool, reauthRequested: bool)

  /** displayError: the modal is opened only for a non-empty message. */
  function DisplayError(msg: string, reauth: bool): (o: Outcome)
    ensures o.text == msg && o.reauthRequested == reauth
    ensures o.showModal <==> msg != ""
  {
    Outcome(msg, Truthy(msg), reauth)
  }

  function Quoted(source: string): string {
    "'" + source + "'"
  }

  /** The three branches errorHelper distinguishes. A missing code is neither
      401 nor at least 500. */
  datatype ErrorKind = Unauthorized | ServerFault | Unrecognized

  function Kind(error: ApiError): ErrorKind {
    if error.code == Some(401) then Unauthorized
    else if error.code.Some? && error.code.value >= 500 then ServerFault
    else Unrecognized
  }

  /** errorHelper: the message for an API error, reported through displayError. */
  function ErrorHelper(error: ApiError, source: string): (o: Outcome)
    ensures o.showModal <==> o.text != ""
    ensures o.reauthRequested <==> Kind(error) == Unauthorized
    ensures Kind(error) == Unauthorized ==>
      && UnauthorizedError <= o.text
      && (o.text != UnauthorizedError <==> '@' in error.message)
      && ('@' in error.message ==> o.text[|UnauthorizedError|..] == "<br><br>" + error.message)
    ensures Kind(error) == ServerFault ==>
      o.text == ServerError + Quoted(if Truthy(source) then source else "generic")
    ensures Kind(error) == Unrecognized ==> o.text == error.message
  {
    var msg :=
      if error.code == Some(401) then
        UnauthorizedError + (if '@' in error.message then "<br><br>" + error.message else "")
      else if error.code.Some? && error.code.value >= 500 then
        ServerError + (if Truthy(source) then Quoted(source) else Quoted("generic"))
      else
        error.message;
    DisplayError(msg, error.code == Some(401))
  }

  /** The 600 sentinel takes the server-error branch: its text names the
      source and does not carry the sentinel's own message. */
  lemma SentinelReadsAsServerError(message: string, source: string)
    requires Truthy(source)
    ensures ErrorHelper(ApiError(Some(600), message), source)
         == Outcome(ServerError + Quoted(source), true, false)
  {
  }

  /** The built-in failure handling of `load` when the caller gave no failure
      callback. A missing code fails `code < 500` and gets the server text. */
  function RoomsFailure(error: ApiError): (o: Outcome)
    ensures o.showModal <==> o.text != ""
    ensures o.reauthRequested <==> error.code == Some(401)
    ensures error.code == Some(401) ==> o.text == UnauthorizedError
    ensures error.code.None? || error.code.value >= 500 ==> o.text == ServerError + "'rooms()'"
    ensures error.code.Some? && error.code.value < 500 && error.code.value != 401 ==>
      o.text == error.message
  {
    if error.code.Some? && error.code.value < 500 then
      if error.code.value == 401 then DisplayError(UnauthorizedError, true)
      else DisplayError(error.message, false)
    else
      DisplayError(ServerError + "'rooms()'", false)
  }

  /** The built-in handler of `load` and errorHelper(_, 'rooms()') agree on
      every error with a code other than 401. On 401 the built-in text never
      appends the account; on a missing code the built-in handler reports a
      server error where errorHelper shows the raw message. */
  lemma RoomsFailureVersusErrorHelper(error: ApiError)
    ensures error.code.Some? && error.code.value != 401 ==>
      RoomsFailure(error) == ErrorHelper(error, "rooms()")
    ensures error.code == Some(401) ==>
      RoomsFailure(error).reauthRequested && ErrorHelper(error, "rooms()").reauthRequested &&
      UnauthorizedError == RoomsFailure(error).text <= ErrorHelper(error, "rooms()").text
    ensures error.code.None? ==>
      RoomsFailure(error).text == ServerError + "'rooms()'" &&
      ErrorHelper(error, "rooms()").text == error.message
  {
  }

  /** A housing API method as the page finds it: missing from the loaded API,
      or present, in which case the model is given the response it produced. */
  datatype Capability<T> = Absent | Present(response: Result<T, ApiError>)

  /** current, reserve and deleteReservation: the API's own answer when the
      method exists, otherwise a thenable that always fails with 600. */
  function Call<T>(api: Capability<T>): (r: Result<T, ApiError>)
    ensures api.Absent? ==> r == Err(NotAvailable)
    ensures api.Present? ==> r == api.response
  {
    match api
    case Absent => Err(NotAvailable)
    case Present(response) => response
  }

  /** A wrapper whose API method is missing never succeeds, and errorHelper
      turns its failure into the server-error text naming the caller. */
  lemma AbsentCallReportsServerError<T>(source: string)
    ensures Call<T>(Absent).Err?
    ensures ErrorHelper(Call<T>(Absent).error, source)
         == Outcome(ServerError + Quoted(if Truthy(source) then source else "generic"), true, false)
  {
  }

  /** The outcome of `load(floor).then(success, failure)`. */
  datatype LoadOutcome =
    | Loaded(floors: seq<Floor>, floor: Ident)   // success(floors, floor)
    | Rejected(error: ApiError)                  // failure(resp)
    | Reported(outcome: Outcome)                 // built-in error display
    | ScriptError                                // the script throws a TypeError

  /** The sample file fetched when the API is missing: its `floors`, or the
      transport error of a failed fetch. */
  datatype SampleFetch = Parsed(floors: seq<Floor>) | FetchFailed(transportError: string)

  /** The success step of `load`, as dist/js/app.js writes it: an undefined
      floor defaults to the number of the first delivered floor. */
  function DeliverFloors(floor: Option<Ident>, floors: seq<Floor>): (r: LoadOutcome)
    ensures r.Loaded? <==> floor.Some? || |floors| > 0
    ensures !r.Loaded? ==> r.ScriptError?
    ensures r.Loaded? ==> r.floors == floors
    ensures r.Loaded? && floor.Some? ==> r.floor == floor.value
    ensures r.Loaded? && floor.None? ==> r.floor == floors[0].number
  {
    if floor.Some? then Loaded(floors, floor.value)
    else if |floors| > 0 then Loaded(floors, floors[0].number)
    else ScriptError
  }

  /** A floor the caller passes is used as given: nothing checks that a
      delivered floor has that number, and when none has it the page that
      loads it draws no floor at all. */
  lemma GivenFloorIsNotChecked(floor: Ident, floors: seq<Floor>)
    ensures DeliverFloors(Some(floor), floors) == Loaded(floors, floor)
    ensures (forall i :: 0 <= i < |floors| ==> !LooseEqUndef(floors[i].number, Some(floor))) ==>
      Matching(floors, Some(floor)) == []
  {
    MatchingExact(floors, Some(floor));
  }

  /** The success step of `load` over the API as js/endpoints.js writes it:
      the default floor is read from `jsonobj`, which is not in scope there,
      so an undefined floor raises a ReferenceError. */
  function RemoteSuccessAsWritten(floor: Option<Ident>, floors: seq<Floor>): (r: LoadOutcome)
    ensures r.ScriptError? <==> floor.None?
  {
    if floor.None? then ScriptError else Loaded(floors, floor.value)
  }

  /** The discrepancy: given a non-empty floor list and no floor, the code as
      written fails where the intended rule loads the first floor. */
  lemma AsWrittenLosesDefaultFloor(floors: seq<Floor>)
    requires |floors| > 0
    ensures RemoteSuccessAsWritten(None, floors) == ScriptError
    ensures DeliverFloors(None, floors) == Loaded(floors, floors[0].number)
  {
  }

  /** `load`: floors from the API when its `rooms` method exists, otherwise
      from the sample file. `hasFailureCallback` says whether the caller
      passed a failure callback to `then`. */
  function Load(floor: Option<Ident>, hasFailureCallback: bool, rooms: Capability<seq<Floor>>,
                sample: SampleFetch): (r: LoadOutcome)
    // what success receives: the delivered floors verbatim and the floor rule
    ensures rooms.Present? && rooms.response.Ok? ==> r == DeliverFloors(floor, rooms.response.value)
    ensures rooms.Absent? && sample.Parsed? ==> r == DeliverFloors(floor, sample.floors)
    // a supplied failure callback receives the raw error, and no message is shown
    ensures rooms.Present? && rooms.response.Err? && hasFailureCallback ==>
      r == Rejected(rooms.response.error)
    ensures rooms.Present? && rooms.response.Err? && !hasFailureCallback ==>
      r == Reported(RoomsFailure(rooms.response.error))
    // a failed fetch of the sample file fails with 600 and the transport error
    ensures rooms.Absent? && sample.FetchFailed? ==>
      r == if hasFailureCallback then Rejected(ApiError(Some(600), sample.transportError))
           else ScriptError
    ensures r.Reported? ==> rooms.Present?
  {
    match rooms
    case Present(Ok(floors)) => DeliverFloors(floor, floors)
    case Present(Err(error)) =>
      if hasFailureCallback then Rejected(error) else Reported(RoomsFailure(error))
    case Absent =>
      match sample
      case Parsed(floors) => DeliverFloors(floor, floors)
      case FetchFailed(err) =>
        if hasFailureCallback then Rejected(ApiError(Some(600), err)) else ScriptError
  }

  /** The silent sign-in of `check`: prefers accounts of the RIT domain. */
  const CheckConfig: AuthConfig := AuthConfig(ClientId, Scopes, true, Some("g.rit.edu"), None)

  /** The interactive sign-in of `click`: full account chooser. */
  const ClickConfig: AuthConfig := AuthConfig(ClientId, Scopes, false, None, Some(""))

  /** The state the sign-in flow keeps in the housing.endpoints namespace,
      with the requests it issues recorded in order. */
  class Client {
    var appStored: bool                      // housing.endpoints.app has been set
    var authorizeRequests: seq<AuthConfig>   // gapi.auth.authorize calls
    var published: seq<bool>                 // values passed to housing.endpoints.app
    var userinfoRequests: nat                // userinfo.get calls
    var email: Option<string>                // the account shown in the title bar

    constructor ()
      ensures !appStored && authorizeRequests == [] && published == []
      ensures userinfoRequests == 0 && email == None
    {
      appStored, authorizeRequests, published := false, [], [];
      userinfoRequests, email := 0, None;
    }

    /** check: stores the app callback and asks silently for authorization. */
    method Check()
      modifies this
      ensures appStored && authorizeRequests == old(authorizeRequests) + [CheckConfig]
      ensures published == old(published) && userinfoRequests == old(userinfoRequests)
      ensures email == old(email)
    {
      appStored := true;
      authorizeRequests := authorizeRequests + [CheckConfig];
    }

    /** click: asks interactively; returning false cancels the link. */
    method Click() returns (followLink: bool)
      modifies this
      ensures !followLink
      ensures authorizeRequests == old(authorizeRequests) + [ClickConfig]
      ensures appStored == old(appStored) && published == old(published)
      ensures userinfoRequests == old(userinfoRequests) && email == old(email)
    {
      authorizeRequests := authorizeRequests + [ClickConfig];
      followLink := false;
    }

    /** result: the authorize callback. Asks for the user's email, then tells
        the stored app whether the user is signed in; with no app stored the
        call throws and nothing is published. */
    method OnAuthorize(result: Option<AuthResponse>)
      modifies this
      ensures userinfoRequests == old(userinfoRequests) + 1
      ensures published == old(published) + (if appStored then [Authorized(result)] else [])
      ensures appStored == old(appStored) && authorizeRequests == old(authorizeRequests)
      ensures email == old(email)
    {
      userinfoRequests := userinfoRequests + 1;
      if appStored {
        published := published + [Authorized(result)];
      }
    }

    /** The userinfo response: its email is shown; a failure is only logged,
        so neither the shown email nor the published state changes. */
    method OnUserinfo(resp: Result<string, string>)
      modifies this
      ensures email == if resp.Ok? then Some(resp.value) else old(email)
      ensures appStored == old(appStored) && authorizeRequests == old(authorizeRequests)
      ensures published == old(published) && userinfoRequests == old(userinfoRequests)
    {
      if resp.Ok? {
        email := Some(resp.value);
      }
    }
  }

  /** One call of `login`: the two module loads it requests and the
      `apisToLoad` counter its load callback closes over. */
  class Login {
    var apisToLoad: int
    const client: Client
    const requested: seq<ModuleLoad>
    ghost var callbacks: nat     // load callbacks received so far
    ghost var checks: nat        // calls of check made by this login

    ghost predicate Valid()
      reads this
    {
      apisToLoad == 2 - callbacks && checks == CountdownFires(2, callbacks)
    }

    constructor (client: Client)
      ensures Valid() && this.client == client && callbacks == 0 && checks == 0
      ensures requested == [ModuleLoad("housing", "v1", Some(Hostname + "/_ah/api")),
                            ModuleLoad("oauth2", "v2", None)]
    {
      this.client := client;
      apisToLoad := 2;
      requested := [ModuleLoad("housing", "v1", Some(Hostname + "/_ah/api")),
                    ModuleLoad("oauth2", "v2", None)];
      callbacks, checks := 0, 0;
    }

    /** The load callback: decrements the counter and calls check when it
        reaches zero. */
    method LoadCallback()
      requires Valid()
      modifies this, client
      ensures Valid() && callbacks == old(callbacks) + 1
      ensures checks <= 1 && (checks == 1 <==> callbacks >= 2)
      ensures client.authorizeRequests
           == old(client.authorizeRequests) + (if callbacks == 2 then [CheckConfig] else [])
      ensures client.appStored == (old(client.appStored) || callbacks == 2)
      ensures client.published == old(client.published)
      ensures client.userinfoRequests == old(client.userinfoRequests)
      ensures client.email == old(client.email)
    {
      apisToLoad := apisToLoad - 1;
      callbacks := callbacks + 1;
      if apisToLoad == 0 {
        client.Check();
        checks := checks + 1;
      }
      TwoLoadsFireOnce(callbacks);
    }
  }

  /** The join seen from outside: one load callback issues no authorization
      request, the second issues exactly one, the silent one. */
  method LoginScenario() returns (afterOne: seq<AuthConfig>, afterTwo: seq<AuthConfig>)
    ensures afterOne == []
    ensures afterTwo == [CheckConfig]
  {
    var client := new Client();
    var login := new Login(client);
    login.LoadCallback();
    afterOne := client.authorizeRequests;
    login.LoadCallback();
    afterTwo := client.authorizeRequests;
  }
}
