/** The route table, path resolution with its `/404` fallback, and the
    browser's session history that `navigateTo` pushes onto and `popstate`
    moves through. */
module Router {
  import opened Wrappers

  /** The three view functions of the table. */
  datatype Route = HomeRoute | LoginRoute | NotFoundRoute

  const Routes: map<string, Route> := map["/" := HomeRoute, "/login" := LoginRoute, "/404" := NotFoundRoute]

  /** `routes[path] || routes['/404']`. Paths are location pathnames, which
      always begin with "/", so no inherited property of the table object
      can be looked up. */
  function Resolve(path: string): (r: Route)
    ensures path in Routes ==> r == Routes[path]
    ensures r == HomeRoute <==> path == "/"
    ensures r == LoginRoute <==> path == "/login"
    ensures r == NotFoundRoute <==> path != "/" && path != "/login"
  {
    if path in Routes then Routes[path] else Routes["/404"]
  }

  /** The three named entries of the table. */
  lemma RouteTable()
    ensures Resolve("/") == HomeRoute
    ensures Resolve("/login") == LoginRoute
    ensures Resolve("/404") == NotFoundRoute
  {
  }

  /** The session history: entries behind the current one, the current one,
      and entries ahead of it. */
  datatype History = History(back: seq<string>, current: string, forward: seq<string>)

  /** The entries in order, and the position of the current one. */
  function Entries(h: History): (e: seq<string>)
    ensures |e| == |h.back| + 1 + |h.forward|
    ensures e[|h.back|] == h.current
  {
    h.back + [h.current] + h.forward
  }

  /** `history.pushState`: the entries ahead are dropped and the path becomes
      the new current entry. */
  function Push(h: History, path: string): (r: History)
    ensures Entries(r) == Entries(h)[..|h.back| + 1] + [path]
    ensures |r.back| == |h.back| + 1
    ensures r.current == path
  {
    var r := History(h.back + [h.current], path, []);
    assert Entries(h)[..|h.back| + 1] == h.back + [h.current];
    r
  }

  /** Going back one entry; `None` when there is nothing behind. */
  function Back(h: History): (r: Option<History>)
    ensures r.Some? <==> |h.back| > 0
    ensures r.Some? ==> Entries(r.value) == Entries(h) && |r.value.back| + 1 == |h.back|
  {
    if |h.back| == 0 then None
    else
      var r := History(h.back[..|h.back| - 1], h.back[|h.back| - 1], [h.current] + h.forward);
      assert h.back == h.back[..|h.back| - 1] + [h.back[|h.back| - 1]];
      Some(r)
  }

  /** Going forward one entry; `None` when there is nothing ahead. */
  function Forward(h: History): (r: Option<History>)
    ensures r.Some? <==> |h.forward| > 0
    ensures r.Some? ==> Entries(r.value) == Entries(h) && |r.value.back| == |h.back| + 1
  {
    if |h.forward| == 0 then None
    else
      var r := History(h.back + [h.current], h.forward[0], h.forward[1..]);
      assert h.forward == [h.forward[0]] + h.forward[1..];
      Some(r)
  }

  /** Back and forward undo each other. */
  lemma {:induction false} BackThenForward(h: History)
    requires |h.back| > 0
    ensures Back(h).Some? && Forward(Back(h).value) == Some(h)
  {
    var b := Back(h).value;
    assert b.back + [b.current] == h.back;
  }

  lemma {:induction false} ForwardThenBack(h: History)
    requires |h.forward| > 0
    ensures Forward(h).Some? && Back(Forward(h).value) == Some(h)
  {
    var f := Forward(h).value;
    assert f.back[..|f.back| - 1] == h.back;
    assert [f.current] + f.forward == h.forward;
  }
}
