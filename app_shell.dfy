/** The top-level `App` component: the logged-in user, kept in step with the
    browser's key-value store, and the route table that guards the main page. */
module AppShell {
  import opened Values
  import opened Browser
  import Api

  const UsernameKey: string := "username"
  const RootPath: string := "/"
  const RegisterPath: string := "/register"

  /** What a route renders. */
  datatype Screen = MainScreen | LoginScreen | RegisterScreen | RedirectTo(path: string) | NoRoute

  /** ASCII lower case, the folding a case-insensitive regular expression
      applies when matched against an all-ASCII pattern. */
  function LowerAscii(c: char): char {
    if 'A' <= c <= 'Z' then (c as int - 'A' as int + 'a' as int) as char else c
  }

  /** React Router's default matching of a location against a route path:
      case-insensitive, with any number of trailing slashes allowed. */
  predicate MatchesRoute(path: string, pattern: string) {
    |pattern| <= |path| &&
    (forall i :: 0 <= i < |pattern| ==> LowerAscii(path[i]) == pattern[i]) &&
    (forall i :: |pattern| <= i < |path| ==> path[i] == '/')
  }

  /** The `<Routes>` table for the current `user`. */
  function RouteFor(path: string, user: Option<string>): (s: Screen)
    // the main page is shown exactly to a truthy user; anyone else is sent to /login
    ensures MatchesRoute(path, RootPath) ==> (s == MainScreen <==> TruthyText(user))
    ensures MatchesRoute(path, RootPath) && !TruthyText(user) ==> s == RedirectTo(Api.LoginPath)
    // the login and register pages do not depend on the user
    ensures MatchesRoute(path, Api.LoginPath) ==> s == LoginScreen
    ensures MatchesRoute(path, RegisterPath) ==> s == RegisterScreen
    ensures s == NoRoute <==>
              !MatchesRoute(path, RootPath) && !MatchesRoute(path, Api.LoginPath) && !MatchesRoute(path, RegisterPath)
  {
    RoutesAreDisjoint(path);
    if MatchesRoute(path, RootPath) then
      (if TruthyText(user) then MainScreen else RedirectTo(Api.LoginPath))
    else if MatchesRoute(path, Api.LoginPath) then LoginScreen
    else if MatchesRoute(path, RegisterPath) then RegisterScreen
    else NoRoute
  }

  /** No location matches two of the three route paths. */
  lemma RoutesAreDisjoint(path: string)
    ensures !(MatchesRoute(path, RootPath) && MatchesRoute(path, Api.LoginPath))
    ensures !(MatchesRoute(path, RootPath) && MatchesRoute(path, RegisterPath))
    ensures !(MatchesRoute(path, Api.LoginPath) && MatchesRoute(path, RegisterPath))
  {
    if MatchesRoute(path, Api.LoginPath) || MatchesRoute(path, RegisterPath) {
      // the character after the leading slash is a letter, never a slash
      assert LowerAscii(path[1]) != '/';
    }
    if MatchesRoute(path, Api.LoginPath) {
      assert LowerAscii(path[1]) == 'l';
    }
  }

  /** Appending a slash to a non-empty location never changes what it routes to. */
  lemma {:induction false} TrailingSlashIgnored(path: string, user: Option<string>)
    requires path != []
    ensures RouteFor(path + "/", user) == RouteFor(path, user)
  {
    var longer := path + "/";
    forall pattern | pattern in {RootPath, Api.LoginPath, RegisterPath}
      ensures MatchesRoute(longer, pattern) <==> MatchesRoute(path, pattern)
    {
      assert forall i :: 0 <= i < |path| ==> longer[i] == path[i];
      if MatchesRoute(longer, pattern) {
        // only the added slash could stand for a pattern's last character,
        // and no pattern longer than one character ends in a slash
        assert |pattern| == 1 || pattern[|pattern| - 1] != LowerAscii(longer[|path|]);
        assert |pattern| <= |path|;
      }
    }
  }

  /** Two example locations in other letter case, one with a trailing slash. */
  lemma LoginRouteIgnoresCase(user: Option<string>)
    ensures RouteFor("/Login/", user) == LoginScreen
    ensures RouteFor("/REGISTER", user) == RegisterScreen
  {
    assert MatchesRoute("/Login/", Api.LoginPath);
    assert MatchesRoute("/REGISTER", RegisterPath);
  }

  /** What the user ends up seeing at `path`, after following `<Navigate>`. */
  function Display(path: string, user: Option<string>): (s: Screen)
    ensures !s.RedirectTo?
    ensures path == RootPath && !TruthyText(user) ==> s == LoginScreen
  {
    match RouteFor(path, user)
    case RedirectTo(target) => RouteFor(target, user)
    case other => other
  }

  class App {
    const env: BrowserEnv
    var user: Option<string>

    /** `useState(localStorage.getItem("username"))` */
    constructor (env: BrowserEnv)
      ensures this.env == env
      ensures user == env.GetItem(UsernameKey)
    {
      this.env := env;
      user := env.GetItem(UsernameKey);
    }

    method HandleLogin(username: string)
      modifies this, env
      ensures user == Some(username)
      ensures env.Snapshot() == old(env.Snapshot()).(storage := old(env.storage)[UsernameKey := username])
    {
      user := Some(username);
      env.SetItem(UsernameKey, username);
    }

    method HandleLogout()
      modifies this, env
      ensures user == None
      ensures env.Snapshot() == old(env.Snapshot()).(storage := old(env.storage) - {Api.TokenKey, UsernameKey})
    {
      user := None;
      env.RemoveItem(Api.TokenKey);
      env.RemoveItem(UsernameKey);
    }

    function Screen(path: string): Screen
      reads this
    {
      Display(path, user)
    }
  }

  /** Logging in and then out, from any starting store, leaves the root path
      showing the login page, and the session keys gone from the store. */
  method LoginThenLogout(env: BrowserEnv, username: string) returns (screen: Screen)
    modifies env
    ensures screen == LoginScreen
    ensures Api.TokenKey !in env.storage && UsernameKey !in env.storage
  {
    var app := new App(env);
    app.HandleLogin(username);
    app.HandleLogout();
    screen := app.Screen(RootPath);
  }
}
