/** housing.auth (auth.js): the older sign-in flow. It loads the same two API
    modules and joins on them the same way as housing.endpoints, asks for
    authorization without a domain hint or an account chooser, and tells
    housing.app the result only when housing.app exists. */
module Auth {
  import opened JsValues
  import opened Gapi
  import Endpoints

  const ClientId: string := "180343920180-41f9qsqdcf9it1poolqtqages644lgs3.apps.googleusercontent.com"
  const Scopes: string := "https://www.googleapis.com/auth/userinfo.email"
  const Hostname: string := "https://rithonorshousing.appspot.com"

  /** The silent sign-in of `check`: no domain hint. */
  const CheckConfig: AuthConfig := AuthConfig(ClientId, Scopes, true, None, None)

  /** The interactive sign-in of `click`: no account chooser parameter. */
  const ClickConfig: AuthConfig := AuthConfig(ClientId, Scopes, false, None, None)

  /** Both flows sign in to the same application, and their requests differ
      only in the parameters housing.endpoints adds: `hd` on the silent
      request and `authuser` on the interactive one. */
  lemma SameApplicationFewerParameters()
    ensures ClientId == Endpoints.ClientId && Scopes == Endpoints.Scopes && Hostname == Endpoints.Hostname
    ensures CheckConfig == Endpoints.CheckConfig.(hd := None)
    ensures ClickConfig == Endpoints.ClickConfig.(authuser := None)
    ensures CheckConfig.immediate && !ClickConfig.immediate
  {
  }

  /** The requests housing.auth issues and the values it passes to housing.app. */
  class AuthClient {
    var authorizeRequests: seq<AuthConfig>
    var published: seq<bool>

    constructor ()
      ensures authorizeRequests == [] && published == []
    {
      authorizeRequests, published := [], [];
    }

    /** check: asks silently for authorization. */
    method Check()
      modifies this
      ensures authorizeRequests == old(authorizeRequests) + [CheckConfig]
      ensures published == old(published)
    {
      authorizeRequests := authorizeRequests + [CheckConfig];
    }

    /** click: asks interactively; returning false cancels the link. */
    method Click() returns (followLink: bool)
      modifies this
      ensures !followLink
      ensures authorizeRequests == old(authorizeRequests) + [ClickConfig]
      ensures published == old(published)
    {
      authorizeRequests := authorizeRequests + [ClickConfig];
      followLink := false;
    }

    /** result: passes `result && !result.error` to housing.app when it is
        defined, and otherwise does nothing. */
    method OnAuthorize(appDefined: bool, result: Option<AuthResponse>)
      modifies this
      ensures published == old(published) + (if appDefined then [Authorized(result)] else [])
      ensures authorizeRequests == old(authorizeRequests)
    {
      if appDefined {
        published := published + [Authorized(result)];
      }
    }
  }

  /** One call of `init`: the module loads it requests and the `apisToLoad`
      counter its load callback closes over. */
  class Init {
    var apisToLoad: int
    const client: AuthClient
    const requested: seq<ModuleLoad>
    ghost var callbacks: nat     // load callbacks received so far
    ghost var checks: nat        // calls of check made by this init

    ghost predicate Valid()
      reads this
    {
      apisToLoad == 2 - callbacks && checks == CountdownFires(2, callbacks)
    }

    constructor (client: AuthClient)
      ensures Valid() && this.client == client && callbacks == 0 && checks == 0
      ensures requested == [ModuleLoad("housing", "v1", Some(Hostname + "/_ah/api")),
                            ModuleLoad("oauth2", "v2", None)]
    {
      this.client := client;
      apisToLoad := 2;
      requested := [ModuleLoad("housing", "v1", Some(Hostname + "/_ah/api")),
                    ModuleLoad("oauth2", "v2", None)];
      callbacks, checks := 0, 0;
    }

    /** The load callback: decrements the counter and calls check when it
        reaches zero. */
    method LoadCallback()
      requires Valid()
      modifies this, client
      ensures Valid() && callbacks == old(callbacks) + 1
      ensures checks <= 1 && (checks == 1 <==> callbacks >= 2)
      ensures client.authorizeRequests
           == old(client.authorizeRequests) + (if callbacks == 2 then [CheckConfig] else [])
      ensures client.published == old(client.published)
    {
      apisToLoad := apisToLoad - 1;
      callbacks := callbacks + 1;
      if apisToLoad == 0 {
        client.Check();
        checks := checks + 1;
      }
      TwoLoadsFireOnce(callbacks);
    }
  }

  /** The join seen from outside: no authorization request after one load
      callback, exactly the silent one after the second. */
  method InitScenario() returns (afterOne: seq<AuthConfig>, afterTwo: seq<AuthConfig>)
    ensures afterOne == []
    ensures afterTwo == [CheckConfig]
  {
    var client := new AuthClient();
    var init := new Init(client);
    init.LoadCallback();
    afterOne := client.authorizeRequests;
    init.LoadCallback();
    afterTwo := client.authorizeRequests;
  }

  /** Without housing.app the result goes nowhere; once it exists, the
      signed-in value reaches it. */
  method ResultScenario(result: Option<AuthResponse>) returns (without: seq<bool>, with: seq<bool>)
    ensures without == []
    ensures with == [Authorized(result)]
  {
    var client := new AuthClient();
    client.OnAuthorize(false, result);
    without := client.published;
    client.OnAuthorize(true, result);
    with := client.published;
  }
}
