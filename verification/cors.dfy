/** The CORS origin rule of server.js lines 18-23: the `origin` callback
    given to the cors middleware, which either admits the request or fails it
    with an error. */
module Cors {
  import opened Wrappers
  import opened JsValues
  import Config

  const NotAllowedMessage: string := "CORS not allowed from this origin"

  /** The callback's verdict: `callback(null, true)` or `callback(new Error(..))`. */
  datatype Decision = Admit | Reject(reason: string)

  /** The `Origin` request header as JavaScript sees it: a string, or
      `undefined` when the request carries none. */
  function HeaderValue(origin: Option<string>): (v: JsValue)
    ensures origin.Some? ==> v == Str(origin.value)
    ensures origin.None? ==> v == Undefined
  {
    match origin
    case Some(o) => Str(o)
    case None => Undefined
  }

  /** The origin callback. A missing or empty `Origin` header is falsy and is
      admitted whatever the configuration; the wildcard admits everything;
      otherwise only the configured URL itself, compared character by
      character, is admitted. */
  function CheckOrigin(origin: Option<string>, frontendUrl: string): (d: Decision)
    ensures d.Admit? <==>
      || origin == None
      || origin == Some("")
      || frontendUrl == Config.AnyOrigin
      || origin == Some(frontendUrl)
    ensures d.Reject? ==> d.reason == NotAllowedMessage
  {
    if !Truthy(HeaderValue(origin)) || frontendUrl == Config.AnyOrigin || HeaderValue(origin) == Str(frontendUrl) then
      Admit
    else
      Reject(NotAllowedMessage)
  }

  /** With a specific (non-wildcard) frontend URL, a request that carries a
      non-empty origin is admitted exactly when that origin equals the URL. */
  lemma SpecificUrlAdmitsOnlyItself(o: string, frontendUrl: string)
    requires o != "" && frontendUrl != Config.AnyOrigin
    ensures CheckOrigin(Some(o), frontendUrl) == Admit <==> o == frontendUrl
    ensures o != frontendUrl ==> CheckOrigin(Some(o), frontendUrl) == Reject(NotAllowedMessage)
  {
  }

  /** When FRONTEND_URL is unset or empty it resolves to the wildcard, and
      every origin is admitted. */
  lemma UnsetFrontendUrlAdmitsAll(env: Config.Env, origin: Option<string>)
    requires !Config.IsSet(env, "FRONTEND_URL")
    ensures CheckOrigin(origin, Config.Resolve(env).frontendUrl) == Admit
  {
  }
}
