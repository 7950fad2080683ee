/** The session gate of the home view: `fetchUserData`'s error checks, the
    parse and render steps inside `home`'s `try`, and the decision the gate
    takes from "is a token stored?" and "how did the load go?". The network
    is replaced by the outcome of the one request. */
module HomeFlow {
  import opened Wrappers
  import opened Js
  import opened Parser
  import XpChart
  import AuditChart

  /** What the data request produced: `fetch` rejected, a non-ok status, or
      a JSON body (`None` for a `null` or otherwise falsy body). */
  datatype FetchOutcome = NetworkFailure | NotOk | Body(json: Option<RawResponse>)

  /** Everything the `catch` in `home` can receive. */
  datatype SessionError =
    | FetchRejected
    | StatusNotOk
    | FalsyBody
    | GraphQLErrors
    | BadPayload(parse: ParseError)
    | RenderFailed(render: AuditChart.RenderError)

  /** The four areas of the rendered home page. */
  datatype HomePage = HomePage(
    user: Profile,
    skills: seq<Skill>,
    xps: XpChart.Chart,
    audits: AuditChart.AuditView)

  /** `fetchUserData` after the request: a non-ok status throws, a present
      `errors` field throws (any array is truthy, even an empty one), and a
      null body throws when `errors` is read from it. */
  function FetchUserData(o: FetchOutcome): (r: Result<RawResponse, SessionError>)
    ensures r.Success? <==> o.Body? && o.json.Some? && o.json.value.errors.None?
    ensures r.Success? ==> r.value == o.json.value
    ensures o.NotOk? ==> r == Failure(StatusNotOk)
  {
    match o
    case NetworkFailure => Failure(FetchRejected)
    case NotOk => Failure(StatusNotOk)
    case Body(json) =>
      if json.None? then Failure(FalsyBody)
      else if json.value.errors.Some? then Failure(GraphQLErrors)
      else Success(json.value)
  }

  /** The body of `home`'s `try`: fetch, parse, then render profile, skills,
      XP chart and audit chart in that order; the audit chart is the only
      renderer that can throw. */
  function LoadHome(o: FetchOutcome, now: int): (r: Result<HomePage, SessionError>)
    ensures r.Success? <==>
      && FetchUserData(o).Success?
      && WellFormed(FetchUserData(o).value)
      && ParseResponse(FetchUserData(o).value, now).value.audits.Audits?
    ensures r.Success? ==>
      var p := ParseResponse(o.json.value, now).value;
      && r.value.user == p.user
      && r.value.skills == p.skills
      && r.value.xps == XpChart.RenderXPProgress(p.xps, p.user.totalXP)
      && r.value.audits == AuditChart.RenderAudits(p.audits).value
  {
    var raw :- FetchUserData(o);
    var parsed :- ParseResponse(raw, now).MapFailure(e => BadPayload(e));
    var audits :- AuditChart.RenderAudits(parsed.audits).MapFailure(e => RenderFailed(e));
    Success(HomePage(
      parsed.user,
      parsed.skills,
      XpChart.RenderXPProgress(parsed.xps, parsed.user.totalXP),
      audits))
  }

  /** What `home` does next. */
  datatype GateDecision =
    | GoToLogin                // no token: redirect, nothing fetched
    | Render(page: HomePage)   // everything succeeded
    | ClearAndGoToLogin        // the catch: remove the token, then redirect

  function Gate(token: Option<string>, o: FetchOutcome, now: int): (d: GateDecision)
    ensures !TruthyString(token) ==> d == GoToLogin
    ensures d.Render? <==> TruthyString(token) && LoadHome(o, now).Success?
    ensures d.Render? ==> d.page == LoadHome(o, now).value
    ensures d == ClearAndGoToLogin <==> TruthyString(token) && LoadHome(o, now).Failure?
  {
    if !TruthyString(token) then GoToLogin
    else
      match LoadHome(o, now)
      case Success(page) => Render(page)
      case Failure(_) => ClearAndGoToLogin
  }

  /** Without a token the gate never looks at the network: its decision is
      the same whatever the request would have produced. */
  lemma NoTokenNoFetch(token: Option<string>, o1: FetchOutcome, o2: FetchOutcome, now: int)
    requires !TruthyString(token)
    ensures Gate(token, o1, now) == Gate(token, o2, now) == GoToLogin
  {
  }

  /** Every way the load can fail (rejected request, non-ok status, falsy
      body, reported query errors, a payload that fails to parse, a chart
      that fails to render) leads to the same decision. */
  lemma FailuresAreIndistinguishable(token: Option<string>, o1: FetchOutcome, o2: FetchOutcome, now: int)
    requires TruthyString(token)
    requires LoadHome(o1, now).Failure? && LoadHome(o2, now).Failure?
    ensures Gate(token, o1, now) == Gate(token, o2, now) == ClearAndGoToLogin
  {
  }

  /** The listed failures of `fetchUserData` each end in a cleared token. */
  lemma FetchFailuresClear(token: Option<string>, now: int, errors: seq<string>, data: Option<RawData>)
    requires TruthyString(token)
    ensures Gate(token, NetworkFailure, now) == ClearAndGoToLogin
    ensures Gate(token, NotOk, now) == ClearAndGoToLogin
    ensures Gate(token, Body(None), now) == ClearAndGoToLogin
    ensures Gate(token, Body(Some(RawResponse(data, Some(errors)))), now) == ClearAndGoToLogin
  {
  }

  /** A user with no audit row is signed out: `data.audits[0] || {}` gives
      the empty object, and `renderAudits` throws on it inside the `try`. */
  lemma NoAuditRowSignsOut(token: Option<string>, resp: RawResponse, now: int)
    requires TruthyString(token)
    requires resp.errors.None? && WellFormed(resp)
    requires |resp.data.value.audits.value| == 0
    ensures Gate(token, Body(Some(resp)), now) == ClearAndGoToLogin
  {
  }
}
