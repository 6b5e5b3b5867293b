/** The CSRF protection middleware (src/middlewares/csrf.ts): unsafe requests pass only
    when the browser reports them same-origin or when their origin is allowed. */
module Csrf {
  import opened JsStrings

  /** The `origin` option. A predicate stands for the user's function applied to the
      request's context. */
  datatype OriginOption =
    | Unset
    | OriginString(origin: string)
    | OriginList(origins: seq<string>)
    | OriginPredicate(allowed: string -> bool)

  datatype Decision = Next | Forbidden

  /** The status of the error thrown when a request is refused. */
  const ForbiddenStatus: int := 403

  /** An unset option and the empty string are falsy: the request's own origin is then the
      only allowed one. */
  predicate OptionFalsy(opt: OriginOption) {
    opt.Unset? || opt == OriginString("")
  }

  /** isAllowedOrigin: a missing origin is never allowed. */
  function IsAllowedOrigin(origin: Option<string>, opt: OriginOption, urlOrigin: string): (b: bool)
    ensures origin.None? ==> !b
    ensures origin.Some? && OptionFalsy(opt) ==> (b <==> origin.value == urlOrigin)
    ensures origin.Some? && opt.OriginString? && opt.origin != "" ==> (b <==> origin.value == opt.origin)
    ensures origin.Some? && opt.OriginList? ==> (b <==> origin.value in opt.origins)
    ensures origin.Some? && opt.OriginPredicate? ==> (b <==> opt.allowed(origin.value))
  {
    if origin.None? then false
    else
      match opt
      case Unset => origin.value == urlOrigin
      case OriginString(s) => if s == "" then origin.value == urlOrigin else origin.value == s
      case OriginPredicate(f) => f(origin.value)
      case OriginList(list) => origin.value in list
  }

  predicate SafeMethod(httpMethod: string) {
    httpMethod == "GET" || httpMethod == "HEAD" || httpMethod == "OPTIONS"
  }

  /** The middleware's decision from the method, the `Sec-Fetch-Site` and `Origin` headers,
      the option and the request URL's origin. A request is refused exactly when it is a
      cross-site forgery attempt; safe methods, a browser marking of the same origin or of a
      user-initiated navigation, and a request with neither header always pass. */
  function CsrfDecision(httpMethod: string, secFetchSite: Option<string>, origin: Option<string>,
                        opt: OriginOption, urlOrigin: string): (d: Decision)
    ensures d == Forbidden <==> CrossSiteForgery(httpMethod, secFetchSite, origin, opt, urlOrigin)
    ensures SafeMethod(httpMethod) ==> d == Next
    ensures secFetchSite == Some("same-origin") || secFetchSite == Some("none") ==> d == Next
    ensures secFetchSite.None? && origin.None? ==> d == Next
  {
    if SafeMethod(httpMethod) then Next
    else if secFetchSite.Some? then
      if secFetchSite.value == "same-origin" || secFetchSite.value == "none" || IsAllowedOrigin(origin, opt, urlOrigin)
      then Next else Forbidden
    else if origin.None? then Next
    else if IsAllowedOrigin(origin, opt, urlOrigin) then Next
    else Forbidden
  }

  /** What the middleware guards against: an unsafe request that the browser marks as
      coming from another site, or that carries no browser marking but a foreign origin. */
  predicate CrossSiteForgery(httpMethod: string, secFetchSite: Option<string>, origin: Option<string>,
                             opt: OriginOption, urlOrigin: string) {
    && !SafeMethod(httpMethod)
    && (match secFetchSite
        case Some(site) => site != "same-origin" && site != "none"
        case None => origin.Some?)
    && !IsAllowedOrigin(origin, opt, urlOrigin)
  }

  /** An empty origin string configures the same policy as no option at all. */
  lemma EmptyOriginIsDefault(httpMethod: string, secFetchSite: Option<string>, origin: Option<string>, urlOrigin: string)
    ensures CsrfDecision(httpMethod, secFetchSite, origin, OriginString(""), urlOrigin) ==
            CsrfDecision(httpMethod, secFetchSite, origin, Unset, urlOrigin)
  {
  }
}
