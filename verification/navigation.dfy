/** The client as a whole: the router dispatching to the three views, the
    views redirecting to one another through `navigateTo`, and the browser
    events that start it all (page load, back/forward, form submit, the
    logout and "go home" buttons). Token storage is the `token` slot; the
    History API is `Router.History`; the page is the `view`. */
module Navigation {
  import opened Wrappers
  import opened Js
  import opened Router
  import HomeFlow
  import AuthFlow

  datatype View =
    | Blank
    | HomeShell                                 // the home template, waiting for data
    | HomePage(page: HomeFlow.HomePage)         // the rendered home view
    | LoginForm(armed: bool, errorText: string) // `armed` once the submit handler is attached
    | NotFoundPage

  /** The stored token, the session history, what the page shows, and how
      many data requests have been sent. */
  datatype Browser = Browser(token: Option<string>, history: History, view: View, dataFetches: nat)

  /** The entries up to and including the current one. */
  function Trail(h: History): seq<string> {
    h.back + [h.current]
  }

  /** A state in which no view is half done: the page is a finished view that
      agrees with the location and with the token slot. */
  predicate Settled(b: Browser) {
    match b.view
    case HomePage(_) => b.history.current == "/" && TruthyString(b.token)
    case LoginForm(armed, _) => armed && b.history.current == "/login" && !TruthyString(b.token)
    case NotFoundPage => Resolve(b.history.current) == NotFoundRoute
    case _ => false
  }

  /** The termination measure of a redirect chain: a stored token on the
      sign-in view leads home; home either renders or drops the token and
      leads to sign-in; sign-in without a token stops. */
  function Rank(token: Option<string>, route: Route): nat {
    if TruthyString(token) then
      match route
      case LoginRoute => 3
      case HomeRoute => 2
      case NotFoundRoute => 0
    else if route == HomeRoute then 1
    else 0
  }

  /** The most further navigations entering `route` with `token` can start. */
  function Hops(token: Option<string>, route: Route): nat {
    match route
    case LoginRoute => if TruthyString(token) then 2 else 0
    case HomeRoute => 1
    case NotFoundRoute => 0
  }

  /** `router()`: run the view of the current path. `server` is the answer
      the data request would get and `now` the current instant. */
  function Dispatch(b: Browser, server: HomeFlow.FetchOutcome, now: int): (r: Browser)
    ensures Settled(r)
    ensures Trail(b.history) <= Trail(r.history)
    ensures |r.history.back| <= |b.history.back| + Hops(b.token, Resolve(b.history.current))
    ensures r.token == b.token || r.token == None
    ensures TruthyString(b.token) ==> r.dataFetches <= b.dataFetches + 1
    ensures !TruthyString(b.token) ==> r.dataFetches == b.dataFetches
    decreases Rank(b.token, Resolve(b.history.current)), 1
  {
    match Resolve(b.history.current)
    case HomeRoute => HomeView(b, server, now)
    case LoginRoute => LoginView(b, server, now)
    case NotFoundRoute => PageError(b)
  }

  /** `navigateTo(path)`: push the path, then route on it. */
  function NavigateTo(b: Browser, path: string, server: HomeFlow.FetchOutcome, now: int): (r: Browser)
    ensures Settled(r)
    ensures Trail(b.history) + [path] <= Trail(r.history)
    ensures |r.history.back| <= |b.history.back| + 1 + Hops(b.token, Resolve(path))
    ensures r.token == b.token || r.token == None
    ensures TruthyString(b.token) ==> r.dataFetches <= b.dataFetches + 1
    ensures !TruthyString(b.token) ==> r.dataFetches == b.dataFetches
    decreases Rank(b.token, Resolve(path)), 2
  {
    var pushed := b.(history := Push(b.history, path));
    assert Trail(pushed.history) == Trail(b.history) + [path];
    Dispatch(pushed, server, now)
  }

  /** `home`: the session gate, then either the rendered page or the catch,
      which removes the token and goes to sign-in. */
  function HomeView(b: Browser, server: HomeFlow.FetchOutcome, now: int): (r: Browser)
    requires b.history.current == "/"
    ensures Settled(r)
    ensures Trail(b.history) <= Trail(r.history)
    ensures |r.history.back| <= |b.history.back| + 1
    ensures r.token == b.token || r.token == None
    ensures TruthyString(b.token) ==> r.dataFetches == b.dataFetches + 1
    ensures !TruthyString(b.token) ==> r.dataFetches == b.dataFetches
    decreases Rank(b.token, HomeRoute), 0
  {
    match HomeFlow.Gate(b.token, server, now)
    case GoToLogin =>
      NavigateTo(b, "/login", server, now)
    case Render(page) =>
      b.(view := HomePage(page), dataFetches := b.dataFetches + 1)
    case ClearAndGoToLogin =>
      NavigateTo(b.(token := None, view := HomeShell, dataFetches := b.dataFetches + 1), "/login", server, now)
  }

  /** `login`: the form template is shown first; a stored token then
      redirects home before the submit handler is attached. */
  function LoginView(b: Browser, server: HomeFlow.FetchOutcome, now: int): (r: Browser)
    requires b.history.current == "/login"
    ensures Settled(r)
    ensures Trail(b.history) <= Trail(r.history)
    ensures |r.history.back| <= |b.history.back| + Hops(b.token, LoginRoute)
    ensures r.token == b.token || r.token == None
    ensures TruthyString(b.token) ==> r.dataFetches <= b.dataFetches + 1
    ensures !TruthyString(b.token) ==> r.dataFetches == b.dataFetches
    ensures TruthyString(b.token) ==> Trail(b.history) + ["/"] <= Trail(r.history)
    ensures !TruthyString(b.token) ==> r == b.(view := LoginForm(true, ""))
    decreases Rank(b.token, LoginRoute), 0
  {
    var shown := b.(view := LoginForm(false, ""));
    match AuthFlow.Entry(b.token)
    case RedirectHome => NavigateTo(shown, "/", server, now)
    case ShowForm => shown.(view := LoginForm(true, ""))
  }

  /** `pageError`: the not-found template, whose button goes home. */
  function PageError(b: Browser): (r: Browser)
    requires Resolve(b.history.current) == NotFoundRoute
    ensures Settled(r)
    ensures r.token == b.token && r.history == b.history && r.dataFetches == b.dataFetches
  {
    b.(view := NotFoundPage)
  }

  // ---------------------------------------------------------------------
  // Browser events
  // ---------------------------------------------------------------------

  /** The `load` event: the router runs on the address the page was opened
      at, with whatever token is stored. */
  function Load(token: Option<string>, path: string, server: HomeFlow.FetchOutcome, now: int): (r: Browser)
    ensures Settled(r)
    ensures r.dataFetches <= 1
  {
    Dispatch(Browser(token, History([], path, []), Blank, 0), server, now)
  }

  /** The `popstate` event after the back button: the history moves, then
      the router runs on the new current path without pushing. */
  function PopBack(b: Browser, server: HomeFlow.FetchOutcome, now: int): (r: Browser)
    ensures |b.history.back| == 0 ==> r == b
    ensures |b.history.back| > 0 ==> Settled(r) && Trail(Back(b.history).value) <= Trail(r.history)
  {
    match Back(b.history)
    case None => b
    case Some(h) => Dispatch(b.(history := h), server, now)
  }

  /** The `popstate` event after the forward button. */
  function PopForward(b: Browser, server: HomeFlow.FetchOutcome, now: int): (r: Browser)
    ensures |b.history.forward| == 0 ==> r == b
    ensures |b.history.forward| > 0 ==> Settled(r) && Trail(Forward(b.history).value) <= Trail(r.history)
  {
    match Forward(b.history)
    case None => b
    case Some(h) => Dispatch(b.(history := h), server, now)
  }

  /** The sign-in form's submit handler; it exists only on an armed form. */
  function Submit(b: Browser, o: AuthFlow.SignInOutcome, server: HomeFlow.FetchOutcome, now: int): (r: Browser)
    ensures !(b.view.LoginForm? && b.view.armed) ==> r == b
  {
    if !(b.view.LoginForm? && b.view.armed) then b
    else
      match AuthFlow.OnSubmit(o)
      case NoEffect => b
      case ShowError(text) => b.(view := LoginForm(true, text))
      case StoreAndGoHome(t) => NavigateTo(b.(token := Some(t), view := LoginForm(true, "")), "/", server, now)
  }

  /** The logout button of the home view: remove the token, go to sign-in. */
  function Logout(b: Browser, server: HomeFlow.FetchOutcome, now: int): (r: Browser)
    ensures !b.view.HomePage? ==> r == b
  {
    if !b.view.HomePage? then b
    else NavigateTo(b.(token := None), "/login", server, now)
  }

  /** The not-found view's only button. */
  function GoHome(b: Browser, server: HomeFlow.FetchOutcome, now: int): (r: Browser)
    ensures !b.view.NotFoundPage? ==> r == b
  {
    if !b.view.NotFoundPage? then b
    else NavigateTo(b, "/", server, now)
  }

  // ---------------------------------------------------------------------
  // Properties of whole chains
  // ---------------------------------------------------------------------

  // One step of the router, for each way a view can end.

  lemma DispatchNotFound(b: Browser, server: HomeFlow.FetchOutcome, now: int)
    requires Resolve(b.history.current) == NotFoundRoute
    ensures Dispatch(b, server, now) == b.(view := NotFoundPage)
  {
  }

  lemma DispatchLoginForm(b: Browser, server: HomeFlow.FetchOutcome, now: int)
    requires b.history.current == "/login" && !TruthyString(b.token)
    ensures Dispatch(b, server, now) == b.(view := LoginForm(true, ""))
  {
    assert Dispatch(b, server, now) == LoginView(b, server, now);
  }

  lemma DispatchLoginRedirect(b: Browser, server: HomeFlow.FetchOutcome, now: int)
    requires b.history.current == "/login" && TruthyString(b.token)
    ensures Dispatch(b, server, now) == NavigateTo(b.(view := LoginForm(false, "")), "/", server, now)
  {
    assert Dispatch(b, server, now) == LoginView(b, server, now);
  }

  lemma DispatchHomeNoToken(b: Browser, server: HomeFlow.FetchOutcome, now: int)
    requires b.history.current == "/" && !TruthyString(b.token)
    ensures Dispatch(b, server, now) == NavigateTo(b, "/login", server, now)
  {
    assert Dispatch(b, server, now) == HomeView(b, server, now);
  }

  lemma DispatchHomeRenders(b: Browser, server: HomeFlow.FetchOutcome, now: int)
    requires b.history.current == "/" && TruthyString(b.token)
    requires HomeFlow.LoadHome(server, now).Success?
    ensures Dispatch(b, server, now)
         == b.(view := HomePage(HomeFlow.LoadHome(server, now).value), dataFetches := b.dataFetches + 1)
  {
    assert Dispatch(b, server, now) == HomeView(b, server, now);
  }

  lemma DispatchHomeFails(b: Browser, server: HomeFlow.FetchOutcome, now: int)
    requires b.history.current == "/" && TruthyString(b.token)
    requires HomeFlow.LoadHome(server, now).Failure?
    ensures Dispatch(b, server, now)
         == NavigateTo(b.(token := None, view := HomeShell, dataFetches := b.dataFetches + 1), "/login", server, now)
  {
    assert Dispatch(b, server, now) == HomeView(b, server, now);
  }

  lemma NavigateStep(b: Browser, path: string, server: HomeFlow.FetchOutcome, now: int)
    ensures NavigateTo(b, path, server, now) == Dispatch(b.(history := Push(b.history, path)), server, now)
  {
  }

  /** Every navigation ends on a finished view within three pushed entries. */
  lemma RedirectChainsTerminate(b: Browser, path: string, server: HomeFlow.FetchOutcome, now: int)
    ensures var r := NavigateTo(b, path, server, now);
      Settled(r) && |b.history.back| + 1 <= |r.history.back| <= |b.history.back| + 3
  {
    var r := NavigateTo(b, path, server, now);
    assert |Trail(b.history) + [path]| <= |Trail(r.history)|;
  }

  /** When the path's view renders without redirecting, navigation lands on
      it: the path is pushed, becomes the current location, and nothing else
      is pushed or removed. */
  lemma NavigateInPlace(b: Browser, path: string, server: HomeFlow.FetchOutcome, now: int)
    requires || Resolve(path) == NotFoundRoute
             || (Resolve(path) == LoginRoute && !TruthyString(b.token))
             || (Resolve(path) == HomeRoute && TruthyString(b.token) && HomeFlow.LoadHome(server, now).Success?)
    ensures var r := NavigateTo(b, path, server, now);
      && r.history == Push(b.history, path)
      && r.history.current == path
      && r.token == b.token
  {
    var pushed := b.(history := Push(b.history, path));
    NavigateStep(b, path, server, now);
    if Resolve(path) == NotFoundRoute {
      DispatchNotFound(pushed, server, now);
    } else if Resolve(path) == LoginRoute {
      DispatchLoginForm(pushed, server, now);
    } else {
      DispatchHomeRenders(pushed, server, now);
    }
  }

  /** A path outside the table renders the not-found view where it is, with
      nothing else touched. */
  lemma UnknownPathRendersNotFound(b: Browser, path: string, server: HomeFlow.FetchOutcome, now: int)
    requires path != "/" && path != "/login"
    ensures NavigateTo(b, path, server, now)
         == b.(history := Push(b.history, path), view := NotFoundPage)
  {
    NavigateStep(b, path, server, now);
    DispatchNotFound(b.(history := Push(b.history, path)), server, now);
  }

  /** Home without a token: straight on to sign-in, no request sent, token
      slot untouched. */
  lemma HomeWithoutToken(b: Browser, server: HomeFlow.FetchOutcome, now: int)
    requires !TruthyString(b.token)
    ensures var r := NavigateTo(b, "/", server, now);
      && r.history == Push(Push(b.history, "/"), "/login")
      && r.view == LoginForm(true, "")
      && r.token == b.token
      && r.dataFetches == b.dataFetches
  {
    var home := b.(history := Push(b.history, "/"));
    NavigateStep(b, "/", server, now);
    DispatchHomeNoToken(home, server, now);
    NavigateStep(home, "/login", server, now);
    DispatchLoginForm(home.(history := Push(home.history, "/login")), server, now);
  }

  /** Home with a token whose data load fails in any way: the token is gone
      and the visitor is on the sign-in form. */
  lemma HomeLoadFails(b: Browser, server: HomeFlow.FetchOutcome, now: int)
    requires TruthyString(b.token)
    requires HomeFlow.LoadHome(server, now).Failure?
    ensures var r := NavigateTo(b, "/", server, now);
      && r.history == Push(Push(b.history, "/"), "/login")
      && r.view == LoginForm(true, "")
      && r.token == None
      && r.dataFetches == b.dataFetches + 1
  {
    var home := b.(history := Push(b.history, "/"));
    NavigateStep(b, "/", server, now);
    DispatchHomeFails(home, server, now);
    var cleared := home.(token := None, view := HomeShell, dataFetches := b.dataFetches + 1);
    NavigateStep(cleared, "/login", server, now);
    DispatchLoginForm(cleared.(history := Push(cleared.history, "/login")), server, now);
  }

  /** Home with a token whose data load succeeds: the page is rendered at
      "/" with the token kept. */
  lemma HomeLoadSucceeds(b: Browser, server: HomeFlow.FetchOutcome, now: int)
    requires TruthyString(b.token)
    requires HomeFlow.LoadHome(server, now).Success?
    ensures var r := NavigateTo(b, "/", server, now);
      && r.history == Push(b.history, "/")
      && r.view == HomePage(HomeFlow.LoadHome(server, now).value)
      && r.token == b.token
  {
    NavigateStep(b, "/", server, now);
    DispatchHomeRenders(b.(history := Push(b.history, "/")), server, now);
  }

  /** Sign-in with a stored token goes home at once; the only sign-in form
      that can appear afterwards is the one reached after home dropped the
      token. */
  lemma LoginWithToken(b: Browser, server: HomeFlow.FetchOutcome, now: int)
    requires TruthyString(b.token)
    ensures var r := NavigateTo(b, "/login", server, now);
      && Trail(b.history) + ["/login", "/"] <= Trail(r.history)
      && (r.view.LoginForm? ==> r.token == None && HomeFlow.LoadHome(server, now).Failure?)
      && (r.view.HomePage? ==> r.token == b.token && r.history.current == "/")
  {
    var login := b.(history := Push(b.history, "/login"));
    NavigateStep(b, "/login", server, now);
    DispatchLoginRedirect(login, server, now);
    var shown := login.(view := LoginForm(false, ""));
    assert Trail(shown.history) + ["/"] == Trail(b.history) + ["/login", "/"];
    var home := shown.(history := Push(shown.history, "/"));
    NavigateStep(shown, "/", server, now);
    if HomeFlow.LoadHome(server, now).Success? {
      DispatchHomeRenders(home, server, now);
    } else {
      DispatchHomeFails(home, server, now);
    }
  }

  /** A rejected or unreadable sign-in: only the error text changes. */
  lemma SignInRejectedShowsError(b: Browser, o: AuthFlow.SignInOutcome, server: HomeFlow.FetchOutcome, now: int)
    requires b.view.LoginForm? && b.view.armed
    requires o.SignInNotOk? || (o.SignInBody? && !TruthyString(o.jwt))
    ensures Submit(b, o, server, now) == b.(view := LoginForm(true, AuthFlow.InvalidCredentials))
  {
  }

  /** A successful sign-in stores the token, clears the error and goes home;
      if home then loads, the token stays and the page renders. */
  lemma SignInSucceeds(b: Browser, t: string, server: HomeFlow.FetchOutcome, now: int)
    requires b.view.LoginForm? && b.view.armed
    requires t != ""
    ensures var r := Submit(b, AuthFlow.SignInBody(Some(t)), server, now);
      && r == NavigateTo(b.(token := Some(t), view := LoginForm(true, "")), "/", server, now)
      && (HomeFlow.LoadHome(server, now).Success? ==>
            r.token == Some(t) && r.view.HomePage? && r.history == Push(b.history, "/"))
  {
    var stored := b.(token := Some(t), view := LoginForm(true, ""));
    if HomeFlow.LoadHome(server, now).Success? {
      NavigateStep(stored, "/", server, now);
      DispatchHomeRenders(stored.(history := Push(stored.history, "/")), server, now);
    }
  }

  /** Logging out removes the token and shows an empty sign-in form, without
      a request. */
  lemma LogoutClearsSession(b: Browser, server: HomeFlow.FetchOutcome, now: int)
    requires b.view.HomePage?
    ensures var r := Logout(b, server, now);
      && r.token == None
      && r.view == LoginForm(true, "")
      && r.history == Push(b.history, "/login")
      && r.dataFetches == b.dataFetches
  {
    var cleared := b.(token := None);
    NavigateStep(cleared, "/login", server, now);
    DispatchLoginForm(cleared.(history := Push(cleared.history, "/login")), server, now);
  }

  /** The not-found button leads exactly where navigating to "/" leads. */
  lemma GoHomeIsNavigateHome(b: Browser, server: HomeFlow.FetchOutcome, now: int)
    requires b.view.NotFoundPage?
    ensures var r := GoHome(b, server, now);
      r == NavigateTo(b, "/", server, now) && Trail(b.history) + ["/"] <= Trail(r.history)
  {
  }

  /** Back/forward re-runs the router without pushing: when the restored
      entry's view renders in place, the history is exactly the moved one. */
  lemma PopBackDoesNotPush(b: Browser, server: HomeFlow.FetchOutcome, now: int)
    requires |b.history.back| > 0
    requires var p := b.history.back[|b.history.back| - 1];
      Resolve(p) == NotFoundRoute
      || (Resolve(p) == LoginRoute && !TruthyString(b.token))
      || (Resolve(p) == HomeRoute && TruthyString(b.token) && HomeFlow.LoadHome(server, now).Success?)
    ensures PopBack(b, server, now).history == Back(b.history).value
  {
    var h := Back(b.history).value;
    var moved := b.(history := h);
    assert h.current == b.history.back[|b.history.back| - 1];
    if Resolve(h.current) == NotFoundRoute {
      DispatchNotFound(moved, server, now);
    } else if Resolve(h.current) == LoginRoute {
      DispatchLoginForm(moved, server, now);
    } else {
      DispatchHomeRenders(moved, server, now);
    }
  }

  /** The forward button likewise moves the history without pushing. */
  lemma PopForwardDoesNotPush(b: Browser, server: HomeFlow.FetchOutcome, now: int)
    requires |b.history.forward| > 0
    requires var p := b.history.forward[0];
      Resolve(p) == NotFoundRoute
      || (Resolve(p) == LoginRoute && !TruthyString(b.token))
      || (Resolve(p) == HomeRoute && TruthyString(b.token) && HomeFlow.LoadHome(server, now).Success?)
    ensures PopForward(b, server, now).history == Forward(b.history).value
  {
    var h := Forward(b.history).value;
    var moved := b.(history := h);
    assert h.current == b.history.forward[0];
    if Resolve(h.current) == NotFoundRoute {
      DispatchNotFound(moved, server, now);
    } else if Resolve(h.current) == LoginRoute {
      DispatchLoginForm(moved, server, now);
    } else {
      DispatchHomeRenders(moved, server, now);
    }
  }
}
