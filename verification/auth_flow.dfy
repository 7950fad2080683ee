/** The decisions of the sign-in view `login`: on entry, and when the form is
    submitted. The credential exchange is replaced by its outcome; the
    Basic-auth header is not modelled. */
module AuthFlow {
  import opened Wrappers
  import opened Js

  const InvalidCredentials: string := "credentials are invalid"

  /** What the sign-in request produced: `fetch` (or reading its JSON)
      rejected, a non-ok status, or the JSON body, which is the token. */
  datatype SignInOutcome = SignInRejected | SignInNotOk | SignInBody(jwt: Option<string>)

  /** On entering the view: a stored token sends the visitor home before any
      submit handler is attached. */
  datatype EntryDecision = RedirectHome | ShowForm

  function Entry(token: Option<string>): (d: EntryDecision)
    ensures d == RedirectHome <==> TruthyString(token)
  {
    if TruthyString(token) then RedirectHome else ShowForm
  }

  /** What the submit handler does with the outcome. A rejected request is
      never caught, so nothing on the page changes. */
  datatype SubmitDecision = NoEffect | ShowError(text: string) | StoreAndGoHome(token: string)

  function OnSubmit(o: SignInOutcome): (d: SubmitDecision)
    ensures d.NoEffect? <==> o.SignInRejected?
    ensures d.ShowError? <==> o.SignInNotOk? || (o.SignInBody? && !TruthyString(o.jwt))
    ensures d.ShowError? ==> d.text == InvalidCredentials
    ensures d.StoreAndGoHome? <==> o.SignInBody? && TruthyString(o.jwt)
    ensures d.StoreAndGoHome? ==> d.token == o.jwt.value && d.token != ""
  {
    match o
    case SignInRejected => NoEffect
    case SignInNotOk => ShowError(InvalidCredentials)
    case SignInBody(jwt) =>
      if !TruthyString(jwt) then ShowError(InvalidCredentials)
      else StoreAndGoHome(jwt.value)
  }

  /** A falsy token body is handled exactly like a non-ok status. */
  lemma FalsyBodyIsNotOk(jwt: Option<string>)
    requires !TruthyString(jwt)
    ensures OnSubmit(SignInBody(jwt)) == OnSubmit(SignInNotOk)
  {
  }
}
