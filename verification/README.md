# A verified model of the profile dashboard client

The client is a small single-page application. It signs a user in against a
remote endpoint, fetches profile, skill, XP and audit statistics with one
GraphQL query, and draws them as HTML and SVG widgets. This project models
its decision logic as pure Dafny functions over immutable datatypes:

- **Formatter** (`formatter.dfy`). `convertXPToReadable` picks a unit (B, KB or MB) and the exact quantity to print.
- **Response parser** (`parser.dfy`). `parseResponse` flattens the nested query result into four view models.
  - Falsy fields get JavaScript `||` defaults. The helpers for this are in `js.dfy`.
  - The XP events are stably sorted by time.
- **Cumulative XP chart** (`xp_chart.dfy`). This covers the placeholders and the point coordinates of `renderXPProgress`.
  - The canvas is 400 x 300 with a 40-unit margin.
  - Coordinates are exact reals.
- **Audit chart** (`audit_chart.dfy`). This covers the bar widths and the colour rule of `renderAudits`.
- **Session gate** (`home_flow.dfy`). These are the error checks of `fetchUserData` and the decision `home` takes.
  - The decision depends on whether a token is stored.
  - It also depends on how the fetch, parse and render went.
- **Sign-in decisions** (`auth_flow.dfy`). These are the decisions of `login`: on entry, and when the form is submitted.
- **Router** (`router.dfy`). This is the route table and resolution with the `/404` fallback. It also holds the session history that `navigateTo` pushes onto and back/forward moves through.
- **Navigation** (`navigation.dfy`). This joins everything into one state machine over a `Browser`.
  - A `Browser` holds a token slot, a history, the page shown and a count of data requests.
  - The three views redirect to one another through `navigateTo`.
  - The events that start a chain are page load, back/forward, the form submit, logout and the not-found page's "go home" button.

The network is replaced by outcome datatypes:

- `FetchOutcome` is for the data request: rejected, not ok, or a JSON body.
- `SignInOutcome` is for the sign-in request.

Other substitutions:

- The current time is a parameter `now`.
- Timestamps are integers.
- `localStorage` is an `Option<string>` slot.
- The browser history is a back/current/forward triple.

Where the code and its comments disagree, the model follows the code:

- The comment in `router` says an unknown path defaults to home. The code falls back to `routes['/404']`, and `Router.Resolve` proves that fallback.
- `home` calls the renderers inside its `try`. So an exception thrown while rendering is caught like a fetch error: the token is removed and the visitor goes to `/login`.
  - One such exception is reachable. With no audit row, `data.audits[0] || {}` yields `{}`, and `auditRatio.toFixed(1)` then throws (`HomeFlow.NoAuditRowSignsOut`).
  - The model follows this code path. It does not treat render failures as unguarded.

## Model

| member | source | states |
|---|---|---|
| Js.StringOr | app/home/home.js:64-67 | defaulting a string field: the field when present and non-empty, otherwise the default; never empty when the default is not |
| Js.NumberOrZero | app/home/home.js:75-77 | defaulting a number field to 0 gives the field whenever it is present, 0 otherwise |
| Js.MathRound | app/home/home.js:69 | `Math.round` returns the integer n with n - 1/2 <= x < n + 1/2 (nearest, halves up) |
| Js.MathRoundUnique | app/home/home.js:69 | that window determines the rounded value uniquely |
| Formatter.ConvertXPToReadable | app/home/home.js:136-146 | exactly one tier: B iff xp < 1000, KB iff 1000 <= xp < 1000000, MB iff xp >= 1000000; quantity times the unit's scale is xp; KB/MB quantities are at least 1, KB below 1000 |
| Formatter.UnitMonotone | app/home/home.js:136-146 | a larger quantity never gets a smaller unit |
| Formatter.ConvertExamples | app/home/home.js:136-146 | 999 is 999 B, 1000 is 1 KB, 1000000 is 1 MB, 1500000 is 1.5 MB; byte text is the number followed by " B" |
| Formatter.Text | app/home/home.js:138-144 | the rendered text is the printed digits followed by exactly the unit's suffix |
| Formatter.TextTiers | app/home/home.js:137-145 | for every amount and any digits, the text ends in " B" below 1000, " KB" from 1000 up to 1000000 and " MB" from there on |
| Parser.TotalXP | app/home/home.js:68-70 | total XP is 0 when the aggregate sum is missing or zero, otherwise within one half of the sum (Math.round) |
| Parser.TotalXPOfIntegralSum | app/home/home.js:68-70 | a non-zero integral sum is shown unchanged |
| Parser.ParseLevel | app/home/home.js:71 | level is "N/A" iff the level list is missing or empty or its first amount is falsy; otherwise that amount |
| Parser.ParseProfile | app/home/home.js:63-72 | email, last name, first name and user name are the raw value when truthy and "N/A" otherwise, so never empty; the total XP is the rounded sum or 0 and the level is the first amount or "N/A" |
| Parser.ParseSkill | app/home/home.js:73-78 | skill type is the raw type when truthy, else "Unknown"; max amount is the raw amount, 0 when missing |
| Parser.ParseSkills | app/home/home.js:73-78 | one skill per raw entry, in order |
| Parser.ParseXp | app/home/home.js:80-83 | amount defaults to 0, time to the current instant |
| Parser.ParseXps | app/home/home.js:79-83 | one event per raw entry, in order |
| Parser.InsertByTime | app/home/home.js:84 | insertion adds exactly one element (multiset) and puts it first or keeps the old head first |
| Parser.InsertByTimeSorted | app/home/home.js:84 | inserting into a time-sorted sequence keeps it sorted |
| Parser.SortByTime | app/home/home.js:84 | the sort returns a permutation of its input, non-decreasing by time |
| Parser.AtTimeInsert | app/home/home.js:84 | inserting an event puts it ahead of all events with its time |
| Parser.SortByTimeStable | app/home/home.js:84 | the sort is stable: events with equal times keep their input order |
| Parser.ParseAudits | app/home/home.js:85 | the audit record is the first row, or the empty record iff there is none |
| Parser.ParseResponse | app/home/home.js:60-87 | parsing succeeds iff `data`, all four lists and a first user exist; then profile, skills and audits are the parsed parts, and the XP events are a same-length, time-sorted permutation of the mapped raw events |
| XpChart.MarkersFrom | app/home/home.js:178-201 | one marker per event |
| XpChart.RenderXPProgress | app/home/home.js:148-171 | "no events" placeholder iff the list is empty or total XP is 0; "same time" placeholder iff otherwise first and last time coincide; else one marker per event and a summary of the first event |
| XpChart.XOf | app/home/home.js:182 | the first time maps to the left margin x = 40; its range and monotonicity are XOfRange and XOfMonotone |
| XpChart.YOf | app/home/home.js:184 | a zero running total maps to the bottom line y = 260; its range and monotonicity are YOfRange and YOfMonotone |
| XpChart.YOfTotal | app/home/home.js:184 | the whole total maps to the top margin y = 40 |
| XpChart.Cumulative | app/home/home.js:178-180 | the running total of non-negative amounts is non-negative; its prefix form is CumulativeCons and CumulativeMonotone |
| XpChart.MarkerFor | app/home/home.js:179-199 | the circle sits at the time's x and the running total's y; the text starts at the same x, 25 above, and shows the event's own amount and date |
| XpChart.CumulativeCons | app/home/home.js:180 | the running total splits off its first amount |
| XpChart.MarkersFromAt | app/home/home.js:178-184 | the marker built with a running total equals the marker from the closed-form prefix sum up to and including the event |
| XpChart.PlotMarkerAt | app/home/home.js:164-184 | each drawn point: x from its time between first and last time, y from the XP gained through that event |
| XpChart.XOfRange | app/home/home.js:182 | a time between first and last maps into [40, 360] |
| XpChart.XOfMonotone | app/home/home.js:182 | a later time never maps further left |
| XpChart.XOfEnds | app/home/home.js:164-166 | the first time maps to x = 40 and the last to x = 360 |
| XpChart.PlotX | app/home/home.js:182 | the i-th point's x is its time mapped onto the plotting width |
| XpChart.XCoordinates | app/home/home.js:164-166 | on sorted events every x is in [40, 360], the first is 40, the last is 360, x is non-decreasing |
| XpChart.CumulativeMonotone | app/home/home.js:180 | with non-negative amounts the running total is non-negative and non-decreasing |
| XpChart.YOfRange | app/home/home.js:184 | a non-negative running total maps to y <= 260, and to y >= 40 while it is at most the total |
| XpChart.YOfMonotone | app/home/home.js:184 | a larger running total never maps lower on the canvas |
| XpChart.PlotY | app/home/home.js:178-184 | the i-th point's y is the XP gained through that event, scaled by the total |
| XpChart.YCoordinates | app/home/home.js:184 | with non-negative amounts and positive total, y is at most 260 and non-increasing (the curve climbs); it stays at or below the top margin when the events sum to at most the total |
| XpChart.YReachesTop | app/home/home.js:184 | if the events sum exactly to the total, the last point is at y = 40 |
| AuditChart.UpColour | app/home/home.js:254 | the up side is accented exactly when more audits were done than received |
| AuditChart.DownColour | app/home/home.js:265 | the down side always takes the other colour |
| AuditChart.BarWidth | app/home/home.js:242-263 | a zero value gives an empty bar and a positive one a non-empty bar; its share of the scale is BarWidthShare |
| AuditChart.MaxValue | app/home/home.js:241 | the scale is at least 1, at least each total, and one of the two totals or 1 |
| AuditChart.RenderAudits | app/home/home.js:233-300 | the empty record fails iff there is no audit row; up and down bars get opposite colours, up accented iff totalUp > totalDown (a tie accents down), each caption has its bar's colour, the ratio shown is the record's |
| AuditChart.BarWidthShare | app/home/home.js:242-243 | a bar's width is 200 times the value's share of the scale |
| AuditChart.BarWidthFits | app/home/home.js:252-263 | a value between 0 and the scale gives a width in [0, 200], 200 when it equals the scale |
| AuditChart.BarWidthAdditive | app/home/home.js:242 | the width of a sum is the sum of the widths, so the bonus adds its own share |
| AuditChart.RenderedWidths | app/home/home.js:252-263 | the up bar is scaled from totalUp + totalUpBonus, the down bar from totalDown |
| AuditChart.BarWidths | app/home/home.js:241-263 | down width in [0, 200] for non-negative totalDown and 200 when down sets the scale; when up sets the scale, up width is 200 plus the bonus share, so it can exceed 200 |
| AuditChart.AuditExample | app/home/home.js:241-265 | up 100, down 50, bonus 0: full-width accented up bar, half-width neutral down bar |
| HomeFlow.FetchUserData | app/home/home.js:50-57 | the fetch yields the body iff the status is ok, the body is not falsy (together with the `!data` check at home.js lines 17-19) and carries no `errors` field; a non-ok status is its own error |
| HomeFlow.LoadHome | app/home/home.js:15-24 | the page loads iff the fetch succeeds, the payload parses and there is an audit row; the page holds the parsed profile and skills, the XP chart of the sorted events and total, and the audit chart of the parsed audit row |
| HomeFlow.Gate | app/home/home.js:6-35 | no token means go to sign-in; render iff a token is stored and the load succeeds; a token and a failed load mean clear the token, then go to sign-in |
| HomeFlow.NoTokenNoFetch | app/home/home.js:7-11 | without a token the decision does not depend on the network at all |
| HomeFlow.FailuresAreIndistinguishable | app/home/home.js:30-34 | any two failed loads lead to the same decision, clearing the token |
| HomeFlow.FetchFailuresClear | app/home/home.js:50-56 | a rejected request, a non-ok status, a null body and an `errors` field each clear the token |
| HomeFlow.NoAuditRowSignsOut | app/home/home.js:85 | a well-formed response with no audit row still signs the user out, because rendering the empty record throws inside the `try` |
| AuthFlow.Entry | app/auth/auth.js:7-11 | sign-in redirects home iff a token is stored |
| AuthFlow.OnSubmit | app/auth/auth.js:29-45 | no effect iff the request rejected; the error "credentials are invalid" iff not ok or a falsy body; store-and-go-home iff a truthy token body, storing exactly that token |
| AuthFlow.FalsyBodyIsNotOk | app/auth/auth.js:29-41 | a falsy body is handled exactly like a non-ok response |
| Router.Resolve | app/router.js:6-18 | "/" resolves to home, "/login" to login, and every other path (including "/404") to the not-found view; never home for another path |
| Router.RouteTable | app/router.js:6-10 | the three entries of the table |
| Router.Push | app/router.js:31 | pushing drops the entries ahead, appends the path and makes it current |
| Router.Back | app/router.js:37 | going back exists iff there is an entry behind; it keeps the entries and moves one step |
| Router.Forward | app/router.js:37 | going forward exists iff there is an entry ahead; it keeps the entries and moves one step |
| Router.BackThenForward | app/router.js:37 | back then forward restores the history |
| Router.ForwardThenBack | app/router.js:37 | forward then back restores the history |
| Navigation.Dispatch | app/router.js:13-19 | routing ends on a settled view (home page at "/" with a token, armed sign-in form at "/login" with none, or not-found); entries are only pushed, with a bounded number of redirects; the token is kept or removed; no data request without a token, at most one with |
| Navigation.NavigateTo | app/router.js:29-34 | the path is pushed first and the chain then settles within three pushes, same token and request guarantees |
| Navigation.HomeView | app/home/home.js:6-35 | home settles after at most one redirect and sends exactly one data request iff a token is stored |
| Navigation.LoginView | app/auth/auth.js:4-11 | sign-in settles; with a token "/" is pushed right after the current entry, before any submit handler exists; without one the armed, empty form is the only change |
| Navigation.PageError | app/router.js:21-26 | the not-found view changes only the page |
| Navigation.Load | app/router.js:40 | the initial page load settles with at most one data request |
| Navigation.PopBack | app/router.js:37 | back re-runs the router on the restored entry; with nothing behind, nothing happens |
| Navigation.PopForward | app/router.js:37 | forward re-runs the router on the restored entry; with nothing ahead, nothing happens |
| Navigation.Submit | app/auth/auth.js:14-46 | without an armed form a submit changes nothing |
| Navigation.Logout | app/home/home.js:26-29 | outside the home page, logout changes nothing |
| Navigation.GoHome | app/router.js:21-26 | outside the not-found page, the button changes nothing |
| Navigation.RedirectChainsTerminate | app/home/home.js:30-34 | every navigation, including the `/login` to `/` to `/login` chain, settles within one to three pushed entries |
| Navigation.NavigateInPlace | app/router.js:29-34 | when the path's view renders without redirecting, the path is pushed and is the current location afterwards |
| Navigation.UnknownPathRendersNotFound | app/router.js:16-17 | a path outside the table shows the not-found view at that path, with token, requests and everything else untouched |
| Navigation.HomeWithoutToken | app/home/home.js:7-11 | "/" without a token ends on an empty sign-in form at "/login", with no request sent |
| Navigation.HomeLoadFails | app/home/home.js:30-34 | "/" with a token whose load fails sends one request, removes the token and ends on the sign-in form at "/login" |
| Navigation.HomeLoadSucceeds | app/home/home.js:20-24 | "/" with a token whose load succeeds renders the loaded page at "/" and keeps the token |
| Navigation.LoginWithToken | app/auth/auth.js:7-11 | "/login" with a token pushes "/" next; a sign-in form is reached only after the load failed and the token was removed |
| Navigation.SignInRejectedShowsError | app/auth/auth.js:29-41 | a non-ok or falsy sign-in sets the error text and changes nothing else: no storage, no navigation |
| Navigation.SignInSucceeds | app/auth/auth.js:42-44 | a truthy token is stored, the error cleared and "/" navigated to; if the data loads, the token stays and the page renders |
| Navigation.LogoutClearsSession | app/home/home.js:26-29 | logout removes the token and ends on an empty sign-in form at "/login" without a request |
| Navigation.GoHomeIsNavigateHome | app/router.js:23-25 | the not-found button is navigation to "/" |
| Navigation.PopBackDoesNotPush | app/router.js:37 | back re-runs resolution without pushing: when the restored view renders in place, the history is exactly the moved one |
| Navigation.PopForwardDoesNotPush | app/router.js:37 | forward likewise re-runs resolution without pushing |

## Left out

- Network I/O. The endpoints, headers, the Basic-auth encoding with `btoa`, and the GraphQL query text are not modelled. Each request is reduced to its outcome.
- DOM construction and mutation: templates, `innerHTML`, `createElement`, SVG attribute strings and event-listener wiring. Pages are modelled as the `View` datatype and charts as points, bars and captions.
- `renderProfile` and `renderSkills`. They only copy view-model fields into text and CSS widths. The home page keeps the view models they read.
- Number formatting. The digits printed by `toFixed(2)`, `toFixed(1)` and `${xp}`, and dates printed by `toLocaleDateString`, depend on floating point and locale. `Formatter.Readable` keeps the exact quantity and the unit.
- Floating point. JavaScript numbers are exact reals here, and `NaN` is not modelled.
- Date parsing. `createdAt` is taken as the integer instant it denotes, and "now" is a parameter.
- Nested optional chains are single optional values. Examples are `xp?.aggregate?.sum?.amount` and the skill's `...max?.amount`.
- Audit rows are records of numbers. A `null` column inside a present row is not modelled.
- Sign-in responses whose token is a non-string JSON value. The token is a string.
- `localStorage` persistence across reloads. It is an in-memory slot.
- Relative paths given to `pushState`. Paths are the pathnames they resolve to.
- The `DOMContentLoaded` wiring of `nav a` links. It is `navigateTo` on each link's `data-path`.
- Logging. The `console.error` in home's catch (home.js line 31) and the `console.log` calls of sign-in (auth.js lines 12, 30 and 37) have no effect on the page.
- Races between overlapping asynchronous navigations. A chain is modelled as running to completion before the next event.
- Per-request outcomes. A chain makes at most one data request, so a single `server` outcome answers it. Outcomes that change from one request to the next cannot arise within a chain and are not modelled.
