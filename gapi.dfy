/** The parts of the Google API client the sign-in flow talks to, as data: the
    parameters of an authorization request, the shape of its callback
    argument, the API-module load requests, and the counting join that waits
    for both module loads. */
module Gapi {
  import opened JsValues

  /** The parameters of gapi.auth.authorize. An absent `hd` or `authuser` is
      a parameter the request does not send. */
  datatype AuthConfig = AuthConfig(
    clientId: string,
    scope: string,
    immediate: bool,
    hd: Option<string>,
    authuser: Option<string>)

  /** The argument of the authorize callback, when there is one: an object
      that may carry an `error` string. */
  datatype AuthResponse = AuthResponse(error: Option<string>)

  /** One gapi.client.load request: API name, version and, for the app's own
      API, the root it is served from. */
  datatype ModuleLoad = ModuleLoad(name: string, version: string, root: Option<string>)

  /** `result && !result.error`: a result exists and carries no error. */
  predicate Authorized(result: Option<AuthResponse>)
    ensures Authorized(result) ==> result.Some?
  {
    result.Some? && !(result.value.error.Some? && Truthy(result.value.error.value))
  }

  /** The cases of the predicate: no result is not signed in; a result is
      signed in exactly when its error is missing or the empty string. */
  lemma AuthorizedCases(result: Option<AuthResponse>)
    ensures result.None? ==> !Authorized(result)
    ensures result.Some? ==>
      (Authorized(result) <==> result.value.error.None? || result.value.error == Some(""))
  {
  }

  /** How many of the first `k` load callbacks see the counter, started at
      `start` and decremented once per callback, reach zero. */
  function CountdownFires(start: int, k: nat): nat {
    if k == 0 then 0 else CountdownFires(start, k - 1) + (if start - k == 0 then 1 else 0)
  }

  /** With two modules to load, the join fires exactly once, on the second
      callback, and never before it. */
  lemma {:induction false} TwoLoadsFireOnce(k: nat)
    ensures CountdownFires(2, k) == if k >= 2 then 1 else 0
  {
    if k > 0 {
      TwoLoadsFireOnce(k - 1);
    }
  }
}
