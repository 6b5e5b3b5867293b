/** The trailing-slash middleware (src/middlewares/trailing_slashes.ts): in `always` mode a
    path without a trailing slash is redirected to the one with it, in `never` mode a path
    with one is redirected to the one without; the root path is left alone in both. */
module TrailingSlashes {
  import opened JsStrings

  datatype SlashMode = Always | Never

  datatype Action = Continue | Redirect(location: string)

  /** The pathname a redirect leads to, if the middleware redirects. */
  function RedirectPath(mode: SlashMode, pathname: string): (r: Option<string>)
    ensures pathname == "/" ==> r.None?
    ensures mode == Always && r.Some? ==> r.value == pathname + "/"
    ensures mode == Never && r.Some? ==> pathname == r.value + "/"
    ensures r.Some? <==> pathname != "/" && (mode == Always <==> !EndsWith(pathname, "/"))
  {
    if pathname == "/" then None
    else
      match mode
      case Always => if EndsWith(pathname, "/") then None else Some(pathname + "/")
      case Never => if EndsWith(pathname, "/") then Some(pathname[..|pathname| - 1]) else None
  }

  /** The middleware: a redirect to the new pathname followed by the unchanged search
      string, or the next handler. */
  function TrailingSlashes(mode: SlashMode, pathname: string, search: string): (a: Action)
    ensures a.Redirect? <==> RedirectPath(mode, pathname).Some?
    ensures a.Redirect? ==> a.location == RedirectPath(mode, pathname).value + search
  {
    match RedirectPath(mode, pathname)
    case Some(p) => Redirect(p + search)
    case None => Continue
  }

  /** In `always` mode the redirected path is accepted: one redirect suffices. */
  lemma AlwaysConverges(pathname: string)
    requires RedirectPath(Always, pathname).Some?
    ensures var p := RedirectPath(Always, pathname).value;
      EndsWith(p, "/") && RedirectPath(Always, p).None?
  {
    var p := pathname + "/";
    assert p[|p| - 1..] == "/";
  }

  /** In `never` mode the redirected path is redirected again exactly when the original
      path ended in two slashes and was not `//` itself: each redirect removes one slash. */
  lemma NeverRedirectsAgain(pathname: string)
    requires RedirectPath(Never, pathname).Some?
    ensures var p := RedirectPath(Never, pathname).value;
      RedirectPath(Never, p).Some? <==> EndsWith(pathname, "//") && pathname != "//"
  {
    var p := pathname[..|pathname| - 1];
    assert pathname == p + "/";
    assert EndsWith(pathname, "//") <==> EndsWith(p, "/") by {
      assert pathname[|pathname| - 2..] == p[|p| - 1..] + "/";
    }
  }

  /** The two modes undo each other away from the root: a path `always` adds a slash to is
      one `never` leaves alone, and the other way round. */
  lemma ModesAreInverse(pathname: string)
    requires pathname != "/" && pathname != ""
    ensures RedirectPath(Always, pathname).Some? <==> RedirectPath(Never, pathname).None?
    ensures RedirectPath(Always, pathname).Some? ==>
      RedirectPath(Never, RedirectPath(Always, pathname).value) == Some(pathname)
  {
    var p := pathname + "/";
    assert p[..|p| - 1] == pathname;
    assert p[|p| - 1..] == "/";
  }
}
