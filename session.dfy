/** The fake session: the two `localStorage` keys, the classification of the current page by
    its path, the start-up gate, and what the login and logout handlers write. */
module Session {
  import opened Wrappers
  import opened JsString

  /** `window.localStorage`: string keys to string values. */
  type Store = map<string, string>

  const LoggedInKey: string := "bm_logged_in"
  const LastViewKey: string := "bm_last_view"

  /** The view every fresh session starts on and every fallback chain ends in. */
  const DefaultView: string := "inicio"

  /** `localStorage.getItem(key)`: `null` (None) when the key is absent. */
  function GetItem(s: Store, key: string): Option<string> {
    if key in s then Some(s[key]) else None
  }

  /** The gate's test: the stored flag is exactly the string "1". */
  predicate IsLoggedIn(s: Store) {
    GetItem(s, LoggedInKey) == Some("1")
  }

  datatype PageKind = LoginPage | LandingPage | AppPage | OtherPage

  /** No path carries more than one of the three suffix families. */
  lemma SuffixFamiliesDisjoint(path: string)
    ensures EndsWith(path, "app.html") ==>
      !EndsWith(path, "login.html") && !EndsWith(path, "/") && !EndsWith(path, "index.html")
    ensures EndsWith(path, "login.html") ==> !EndsWith(path, "/") && !EndsWith(path, "index.html")
  {
    var n := |path|;
    if EndsWith(path, "app.html") {
      assert path[n - 6] == "app.html"[2] == 'p';
      assert path[n - 1] == 'l';
    }
    if EndsWith(path, "login.html") {
      assert path[n - 6] == "login.html"[4] == 'n';
      assert path[n - 1] == 'l';
    }
  }

  /** The three page tests on `location.pathname`, taken in the source's order: login page
      first, then landing page, then application shell. Because the suffix families are
      disjoint, each kind holds exactly when its own suffix test holds. */
  function Classify(path: string): (k: PageKind)
    ensures k == LoginPage <==> EndsWith(path, "login.html")
    ensures k == LandingPage <==> EndsWith(path, "/") || EndsWith(path, "index.html")
    ensures k == AppPage <==> EndsWith(path, "app.html")
  {
    SuffixFamiliesDisjoint(path);
    if EndsWith(path, "login.html") then LoginPage
    else if EndsWith(path, "/") || EndsWith(path, "index.html") then LandingPage
    else if EndsWith(path, "app.html") then AppPage
    else OtherPage
  }

  /** What the DOMContentLoaded handler does once it has classified the page. */
  datatype Startup =
    | InstallLoginForm   // login page: only the form handler is wired
    | StayOnLanding      // landing page: nothing is mounted
    | RedirectToLogin    // application shell without the flag: `location.href = "login.html"`
    | MountApp           // application shell with the flag: the router starts
    | DoNothing          // any other page

  /** The start-up decision. On the application shell the router starts exactly when the stored
      flag is "1"; any other stored value, or none, sends the browser to the login page. */
  function StartupAction(path: string, s: Store): (a: Startup)
    ensures a == InstallLoginForm <==> EndsWith(path, "login.html")
    ensures a == StayOnLanding <==> EndsWith(path, "/") || EndsWith(path, "index.html")
    ensures a == RedirectToLogin <==> EndsWith(path, "app.html") && !IsLoggedIn(s)
    ensures a == MountApp <==> EndsWith(path, "app.html") && IsLoggedIn(s)
  {
    var kind := Classify(path);
    if kind == LoginPage then InstallLoginForm
    else if kind == LandingPage then StayOnLanding
    else if !IsLoggedIn(s) && kind == AppPage then RedirectToLogin
    else if kind != AppPage then DoNothing
    else MountApp
  }

  /** The store after a valid login form is submitted: the flag is "1", the last view is the
      default view, and every other key is untouched. */
  function LoginStore(s: Store): (r: Store)
    ensures IsLoggedIn(r) && GetItem(r, LastViewKey) == Some(DefaultView)
    ensures r.Keys == s.Keys + {LoggedInKey, LastViewKey}
    ensures forall k :: k in s && k != LoggedInKey && k != LastViewKey ==> r[k] == s[k]
  {
    s[LoggedInKey := "1"][LastViewKey := DefaultView]
  }

  /** The store after logout: both session keys are gone, whatever they held, and every other
      key is untouched. */
  function LogoutStore(s: Store): (r: Store)
    ensures GetItem(r, LoggedInKey) == None && GetItem(r, LastViewKey) == None
    ensures r.Keys == s.Keys - {LoggedInKey, LastViewKey}
    ensures forall k :: k in r ==> r[k] == s[k]
  {
    s - {LoggedInKey, LastViewKey}
  }

  /** After a login the application shell (reached by the relative href "app.html#inicio",
      so with any directory prefix) is mounted, not redirected. */
  lemma LoginOpensApp(s: Store, dir: string)
    ensures StartupAction(dir + "app.html", LoginStore(s)) == MountApp
  {
    assert (dir + "app.html")[|dir|..] == "app.html";
  }

  /** After a logout the application shell sends the browser back to the login page. */
  lemma LogoutClosesApp(s: Store, dir: string)
    ensures StartupAction(dir + "app.html", LogoutStore(s)) == RedirectToLogin
  {
    assert (dir + "app.html")[|dir|..] == "app.html";
  }
}
