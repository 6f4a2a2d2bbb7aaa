/**
 * The route guard wrapped around every page: it lets the page render once it
 * has seen a stored token, or when the page is one of the sign-in pages, and
 * otherwise announces and schedules a move to "/login".
 */
module RouteGuard {
  import opened Wrappers
  import opened JsValues
  import opened Effects
  import LoginForm

  /** The pages reachable without signing in. */
  const NoAuthPages: seq<string> := ["/login", "/register"]

  /** The storage key the guard reads. */
  const GuardKey := "Token"

  /** The redirect decision: no stored token (or an empty one) on a page that needs one. */
  predicate NeedsRedirect(token: Option<string>, pathname: string) {
    !(token.Some? && token.value != "") && pathname !in NoAuthPages
  }

  /** The sign-in pages never redirect; a stored non-empty token never redirects. */
  lemma RedirectCases(token: Option<string>, pathname: string)
    ensures pathname == "/login" || pathname == "/register" ==> !NeedsRedirect(token, pathname)
    ensures token.Some? && token.value != "" ==> !NeedsRedirect(token, pathname)
    ensures token.None? && pathname == "/" ==> NeedsRedirect(token, pathname)
  {
  }

  /**
   * The sign-in page's own write goes to the key "token", which the guard does not read:
   * by itself it does not let the guard pass (the sign-in client stores "Token" as well).
   */
  lemma PageTokenWriteIsNotGuardToken(entries: map<string, string>, token: string)
    requires GuardKey !in entries
    ensures GuardKey !in entries[LoginForm.TokenKey := token]
    ensures NeedsRedirect(if GuardKey in entries[LoginForm.TokenKey := token] then Some(entries[LoginForm.TokenKey := token][GuardKey]) else None, "/")
  {
  }

  class ProtectedRoute {
    var pathname: string
    /** Whether the page may render; it starts false and, once true, stays true. */
    var isAuthChecked: bool

    constructor (pathname: string)
      ensures this.pathname == pathname && !isAuthChecked
    {
      this.pathname := pathname;
      isAuthChecked := false;
    }

    /** Children render exactly when the check has passed; before that nothing renders. */
    predicate RendersChildren()
      reads this
    {
      isAuthChecked
    }

    /**
     * The check, run on mount and again on every path change: with no token on a
     * protected page it shows "Login First" and schedules a replace to "/login" two
     * seconds later, leaving `isAuthChecked` as it was; otherwise it grants rendering.
     */
    method Check(newPath: string, storage: BrowserStorage) returns (notice: Option<Notice>, redirect: Option<Navigation>)
      modifies this
      ensures pathname == newPath
      ensures NeedsRedirect(storage.GetItem(GuardKey), newPath) ==>
        notice == Some(ErrorNotice("Login First", "Redirecting to login...")) &&
        redirect == Some(NavigateTo("/login", 2000)) && isAuthChecked == old(isAuthChecked)
      ensures !NeedsRedirect(storage.GetItem(GuardKey), newPath) ==> notice.None? && redirect.None? && isAuthChecked
      ensures old(isAuthChecked) ==> isAuthChecked
    {
      pathname := newPath;
      if NeedsRedirect(storage.GetItem(GuardKey), newPath) {
        notice := Some(ErrorNotice("Login First", "Redirecting to login..."));
        redirect := Some(NavigateTo("/login", 2000));
      } else {
        notice := None;
        redirect := None;
        isAuthChecked := true;
      }
    }
  }

  /**
   * Once granted, rendering stays granted: a later visit to a protected page without a
   * token schedules the redirect, but the page that is already showing keeps rendering.
   */
  method GrantIsSticky(guard: ProtectedRoute, storage: BrowserStorage, path: string)
    requires guard.isAuthChecked
    modifies guard
    ensures guard.RendersChildren()
  {
    var notice, redirect := guard.Check(path, storage);
  }

  /**
   * A sign-in on the page, followed by the guard's check of the home page, with storage
   * that holds no "Token": whatever the sign-in does, the page's own write goes to
   * "token", so the guard still shows "Login First" and schedules the move to "/login",
   * and the page does not render. (The sign-in client's own "Token" write, which makes
   * the guard pass in the application, happens outside the page and is not part of this
   * model.)
   */
  method PageSignInThenGuard(page: LoginForm.LoginPage, isEmail: string -> bool, reply: Settled,
                             storage: BrowserStorage, guard: ProtectedRoute)
    returns (outcome: LoginForm.SubmitOutcome, notice: Option<Notice>, redirect: Option<Navigation>)
    requires GuardKey !in storage.entries && !guard.isAuthChecked
    modifies page, storage, guard
    ensures outcome.LoggedIn? ==> LoginForm.TokenKey in storage.entries
    ensures GuardKey !in storage.entries
    ensures notice == Some(ErrorNotice("Login First", "Redirecting to login...")) && redirect == Some(NavigateTo("/login", 2000))
    ensures !guard.RendersChildren()
  {
    outcome := page.Submit(isEmail, reply, storage);
    notice, redirect := guard.Check("/", storage);
  }
}
