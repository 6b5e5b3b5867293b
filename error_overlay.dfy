/** The development error-overlay middleware (src/dev/middlewares/error_overlay/middleware.tsx):
    it serves the overlay page on its own route, and turns a server error thrown while
    answering an HTML request into a page that carries the client scripts, so that the
    overlay can show up. */
module ErrorOverlay {
  import opened JsStrings

  /** What a thrown value is to this middleware. */
  datatype Thrown = HttpErrorThrown(status: int) | OtherThrown

  /** How the rest of the chain answered. */
  datatype NextOutcome = Responded | Threw(error: Thrown)

  datatype OverlayAction =
    | RenderOverlayPage
      /** the next handler's response */
    | PassResponse
    | Rethrow
      /** render FreshScripts, with the status of an HTTP error when there is one */
    | RenderScripts(status: Option<int>)

  /** The middleware. `next` is what calling the next handler gives; it is not consulted on
      the overlay route. `accept` is the request's Accept header. */
  function DevErrorOverlay(pathname: string, basePath: string, overlayUrl: string,
                           accept: Option<string>, next: NextOutcome): (a: OverlayAction)
    ensures pathname == basePath + overlayUrl <==> a == RenderOverlayPage
  {
    if pathname == basePath + overlayUrl then RenderOverlayPage
    else
      match next
      case Responded => PassResponse
      case Threw(err) =>
        if accept.Some? && Contains(accept.value, "text/html") then
          match err
          case HttpErrorThrown(status) => if status < 500 then Rethrow else RenderScripts(Some(status))
          case OtherThrown => RenderScripts(None)
        else Rethrow
  }

  /** The error becomes a page exactly for an HTML request whose error is not an HTTP error
      below 500; that page keeps an HTTP error's status. Every other error is rethrown and a
      response passes through. */
  lemma {:induction false} ServerErrorsBecomePages(pathname: string, basePath: string, overlayUrl: string,
                                                  accept: Option<string>, next: NextOutcome)
    requires pathname != basePath + overlayUrl
    ensures var a := DevErrorOverlay(pathname, basePath, overlayUrl, accept, next);
      && (next.Responded? <==> a == PassResponse)
      && (a.RenderScripts? <==>
           next.Threw? && accept.Some? && Contains(accept.value, "text/html") &&
           !(next.error.HttpErrorThrown? && next.error.status < 500))
      && (a.RenderScripts? && next.error.HttpErrorThrown? ==> a.status == Some(next.error.status) && a.status.value >= 500)
      && (a.RenderScripts? && next.error.OtherThrown? ==> a.status.None?)
      && (next.Threw? ==> (a == Rethrow <==> !a.RenderScripts?))
  {
    match next
    case Responded =>
    case Threw(err) =>
      if accept.Some? && Contains(accept.value, "text/html") {
        match err
        case HttpErrorThrown(status) =>
        case OtherThrown =>
      }
  }
}
