/** The login page's OTP flow as values: the page state the script reads and
    writes, one transition per event handler, and what holds over any sequence
    of user events. Each handler runs to completion before the next event. */
module AuthFlow {
  import opened Wrappers
  import opened Js
  import opened Http
  import opened Endpoints

  /** Which form is shown: the email form (`step1`) or the code form (`step2`). */
  datatype Step = EmailStep | OtpStep

  /** The status line `loginMessage`: its text and whether it is coloured as
      an error (red) or not (green). */
  datatype Status = Status(text: string, isError: bool)

  /** Whether the login tab and the signup tab carry the active styling. */
  datatype Tabs = Tabs(loginActive: bool, signupActive: bool)

  /** A button's `disabled` flag and `textContent`. */
  datatype Button = Button(disabled: bool, text: string)

  /** A request the script hands to `fetch`, with the fields of its JSON body
      or its authorisation header. */
  datatype Request =
    | SendOtpRequest(url: string, email: string, intent: string)
    | VerifyOtpRequest(url: string, email: string, otp: string)
    | ProfileRequest(url: string, authorization: string)

  /** A call the script makes into the browser that leaves the page state
      alone: a `fetch` or an `alert`. */
  datatype Effect = Fetch(request: Request) | Alert(text: string)

  /** Everything the script reads or writes: `currentIntent`, the visible step,
      the status line, the header, the tabs, both buttons, the `localStorage`
      entry under `TokenKey`, the page location once assigned, and the calls
      made so far, in order. */
  datatype View = View(
    intent: string,
    step: Step,
    status: Status,
    header: string,
    tabs: Tabs,
    sendButton: Button,
    verifyButton: Button,
    storedToken: Option<string>,
    location: Option<string>,
    effects: seq<Effect>)

  const DefaultIntent: string := "login"

  const WelcomeBackHeader: string := "Welcome Back"
  const SendLoginOtpLabel: string := "Send Login OTP"
  const GetStartedHeader: string := "Get Started"
  const CreateAccountLabel: string := "Create Account"
  const SendingLabel: string := "Sending..."
  const VerifyingLabel: string := "Verifying..."
  const VerifyLabel: string := "Verify OTP"

  const EnterEmailAlert: string := "Enter a valid email"
  const EnterOtpAlert: string := "Enter OTP"
  const OtpSentMessage: string := "OTP sent! Please check your email."
  const SendFailedMessage: string := "Failed to send OTP."
  const SuccessMessage: string := "Success! Redirecting..."
  const InvalidOtpMessage: string := "Invalid OTP."

  function UnreachableMessage(base: string): string {
    "Backend unreachable (" + base + ")."
  }

  /** The tabs show the current intent: exactly one is active, and it is the
      login tab exactly when the intent is "login". */
  predicate TabsAgree(v: View) {
    (v.tabs.loginActive <==> v.intent == "login") && v.tabs.signupActive == !v.tabs.loginActive
  }

  /** `setMessage(msg, isError)`: writes the status line only. */
  function SetMessage(v: View, msg: string, isError: bool): (r: View)
    ensures r.status == Status(msg, isError)
    ensures r.(status := v.status) == v
  {
    v.(status := Status(msg, isError))
  }

  /** `setMode(mode)`: records the intent, clears the status line, activates
      the login tab for "login" and the signup tab for any other value, and
      relabels the header and the send button to match. */
  function SetMode(v: View, mode: string): (r: View)
    ensures r.intent == mode && TabsAgree(r)
    ensures r.tabs.loginActive <==> mode == "login"
    ensures r.tabs.signupActive <==> mode != "login"
    ensures r.status == Status("", false)
    ensures r.header == (if mode == "login" then WelcomeBackHeader else GetStartedHeader)
    ensures r.sendButton.text == (if mode == "login" then SendLoginOtpLabel else CreateAccountLabel)
    ensures r.sendButton.disabled == v.sendButton.disabled && r.verifyButton == v.verifyButton
    ensures r.step == v.step && r.storedToken == v.storedToken && r.location == v.location
    ensures r.effects == v.effects
  {
    var cleared := SetMessage(v.(intent := mode), "", false);
    if mode == "login" then
      cleared.(tabs := Tabs(true, false), header := WelcomeBackHeader,
               sendButton := cleared.sendButton.(text := SendLoginOtpLabel))
    else
      cleared.(tabs := Tabs(false, true), header := GetStartedHeader,
               sendButton := cleared.sendButton.(text := CreateAccountLabel))
  }

  /** The status line after a send-OTP request: confirmation when `res.ok`,
      the server's truthy `detail` or a generic failure otherwise, and the
      unreachable-backend text when `fetch` or `res.json()` rejects. It is an
      error exactly when the response is not ok. */
  function SendFeedback(base: string, reply: Reply): (s: Status)
    ensures s.isError <==> !Accepted(reply)
    ensures Accepted(reply) ==> s.text == OtpSentMessage
    ensures reply.NetworkError? ==> s.text == UnreachableMessage(base)
    ensures reply.Response? && !Accepted(reply) && Property(reply.body, "detail").None?
      ==> s.text == UnreachableMessage(base)
    ensures reply.Response? && !Accepted(reply) && Property(reply.body, "detail").Some?
      ==> var detail := Property(reply.body, "detail").value;
          s.text == if Truthy(detail) then Text(detail) else SendFailedMessage
  {
    match reply
    case NetworkError => Status(UnreachableMessage(base), true)
    case Response(status, body) =>
      if IsOk(status) then Status(OtpSentMessage, false)
      else
        match Property(body, "detail")
        case None => Status(UnreachableMessage(base), true)
        case Some(detail) => Status(if Truthy(detail) then Text(detail) else SendFailedMessage, true)
  }

  /** The send handler's `try` block once the request is out: the status
      line shows the feedback, and the code form appears when `res.ok`. */
  function AnswerSend(base: string, v: View, reply: Reply): (r: View)
    ensures r.status == SendFeedback(base, reply)
    ensures r.step == if Accepted(reply) then OtpStep else v.step
    ensures r.(status := v.status, step := v.step) == v
  {
    var shown := SetMessage(v, SendFeedback(base, reply).text, SendFeedback(base, reply).isError);
    if Accepted(reply) then shown.(step := OtpStep) else shown
  }

  /** The send-OTP click handler. A field that trims to nothing only raises an
      alert. Otherwise one request carries the trimmed email and the current
      intent, the step advances exactly when the response is ok, and the
      button ends enabled with the label it had before the click. */
  function SendOtp(base: string, v: View, emailValue: string, reply: Reply): (r: View)
    ensures Trim(emailValue) == [] ==> r == v.(effects := v.effects + [Alert(EnterEmailAlert)])
    ensures Trim(emailValue) != [] ==>
      r.effects == v.effects + [Fetch(SendOtpRequest(SendOtpUrl(base), Trim(emailValue), v.intent))]
      && !r.sendButton.disabled
      && r.status == SendFeedback(base, reply)
    ensures r.step == (if Trim(emailValue) != [] && Accepted(reply) then OtpStep else v.step)
    ensures r.sendButton.text == v.sendButton.text
    ensures r.intent == v.intent && r.tabs == v.tabs && r.header == v.header
    ensures r.verifyButton == v.verifyButton
    ensures r.storedToken == v.storedToken && r.location == v.location
  {
    var email := Trim(emailValue);
    if email == [] then
      v.(effects := v.effects + [Alert(EnterEmailAlert)])
    else
      var pending := v.(sendButton := Button(true, SendingLabel),
                        effects := v.effects + [Fetch(SendOtpRequest(SendOtpUrl(base), email, v.intent))]);
      AnswerSend(base, pending, reply).(sendButton := Button(false, v.sendButton.text))
  }

  /** What the verify handler makes of the verify-OTP reply. */
  datatype TokenRead =
    | Token(token: string)   // `data.access_token` is truthy; `token` is its text
    | NoToken                // it is absent or falsy
    | Failed                 // `fetch`, `res.json()` or the property read threw

  /** Reads `access_token` from the reply whatever its status: a truthy value
      is a credential, a falsy one is none, and a reply that cannot be read is
      a failure. */
  function ReadToken(reply: Reply): (t: TokenRead)
    ensures t.Failed? <==> reply.NetworkError? || Property(reply.body, "access_token").None?
    ensures t.Token? <==> reply.Response? && Property(reply.body, "access_token").Some?
                          && Truthy(Property(reply.body, "access_token").value)
    ensures t.Token? ==> t.token == Text(Property(reply.body, "access_token").value)
  {
    match reply
    case NetworkError => Failed
    case Response(_, body) =>
      match Property(body, "access_token")
      case None => Failed
      case Some(value) => if Truthy(value) then Token(Text(value)) else NoToken
  }

  /** Where the page goes after the profile lookup: onboarding exactly when the
      lookup answers 404, the dashboard for every other status and when the
      lookup fails altogether. */
  function RedirectTarget(profile: Reply): (page: string)
    ensures page == OnboardingPage <==> profile.Response? && profile.status == 404
    ensures page == DashboardPage <==> !(profile.Response? && profile.status == 404)
  {
    match profile
    case NetworkError => DashboardPage
    case Response(status, _) =>
      if IsOk(status) then DashboardPage
      else if status == 404 then OnboardingPage
      else DashboardPage
  }

  /** `handlePostLoginRedirect(token)`: stores the token, looks up the profile
      with it as a bearer credential, and always navigates away. */
  function PostLoginRedirect(base: string, v: View, token: string, profile: Reply): (r: View)
    ensures r.storedToken == Some(token)
    ensures r.location.Some? && r.location == Some(RedirectTarget(profile))
    ensures r.effects == v.effects + [Fetch(ProfileRequest(ProfileUrl(base), "Bearer " + token))]
    ensures r.(storedToken := v.storedToken, location := v.location, effects := v.effects) == v
  {
    v.(storedToken := Some(token),
       effects := v.effects + [Fetch(ProfileRequest(ProfileUrl(base), "Bearer " + token))],
       location := Some(RedirectTarget(profile)))
  }

  /** The verify handler's `try` block once the request is out: a truthy
      token is announced and handed to the redirect, a missing or falsy one is
      reported as an invalid code, and a reply that cannot be read as the
      unreachable backend. */
  function AnswerVerify(base: string, v: View, reply: Reply, profile: Reply): (r: View)
    ensures r.effects == v.effects
      + (if ReadToken(reply).Token?
         then [Fetch(ProfileRequest(ProfileUrl(base), "Bearer " + ReadToken(reply).token))] else [])
    ensures ReadToken(reply).Token? ==>
      r.storedToken == Some(ReadToken(reply).token) && r.location == Some(RedirectTarget(profile))
      && r.status == Status(SuccessMessage, false)
    ensures !ReadToken(reply).Token? ==> r.storedToken == v.storedToken && r.location == v.location
    ensures ReadToken(reply).NoToken? ==> r.status == Status(InvalidOtpMessage, true)
    ensures ReadToken(reply).Failed? ==> r.status == Status(UnreachableMessage(base), true)
    ensures r.(status := v.status, storedToken := v.storedToken, location := v.location,
               effects := v.effects) == v
  {
    match ReadToken(reply)
    case Token(token) => PostLoginRedirect(base, SetMessage(v, SuccessMessage, false), token, profile)
    case NoToken => SetMessage(v, InvalidOtpMessage, true)
    case Failed => SetMessage(v, UnreachableMessage(base), true)
  }

  /** The verify-OTP click handler. A code that trims to nothing only raises an
      alert. Otherwise one request carries the trimmed email and code; a
      credential is stored, and the page navigates, if and only if the reply
      has a truthy `access_token`; and the button ends enabled and labelled
      "Verify OTP". */
  function VerifyOtp(base: string, v: View, otpValue: string, emailValue: string,
                     reply: Reply, profile: Reply): (r: View)
    ensures Trim(otpValue) == [] ==> r == v.(effects := v.effects + [Alert(EnterOtpAlert)])
    ensures Trim(otpValue) != [] ==>
      r.effects == v.effects
        + [Fetch(VerifyOtpRequest(VerifyOtpUrl(base), Trim(emailValue), Trim(otpValue)))]
        + (if ReadToken(reply).Token?
           then [Fetch(ProfileRequest(ProfileUrl(base), "Bearer " + ReadToken(reply).token))] else [])
      && r.verifyButton == Button(false, VerifyLabel)
    ensures Trim(otpValue) != [] && ReadToken(reply).Token? ==>
      r.storedToken == Some(ReadToken(reply).token)
      && r.location == Some(RedirectTarget(profile))
      && r.status == Status(SuccessMessage, false)
    ensures !(Trim(otpValue) != [] && ReadToken(reply).Token?) ==>
      r.storedToken == v.storedToken && r.location == v.location
    ensures Trim(otpValue) != [] && ReadToken(reply).NoToken? ==>
      r.status == Status(InvalidOtpMessage, true)
    ensures Trim(otpValue) != [] && ReadToken(reply).Failed? ==>
      r.status == Status(UnreachableMessage(base), true)
    ensures r.step == v.step && r.intent == v.intent && r.tabs == v.tabs && r.header == v.header
    ensures r.sendButton == v.sendButton
  {
    var otp := Trim(otpValue);
    var email := Trim(emailValue);
    if otp == [] then
      v.(effects := v.effects + [Alert(EnterOtpAlert)])
    else
      var asked := v.(verifyButton := Button(true, VerifyingLabel),
                      effects := v.effects + [Fetch(VerifyOtpRequest(VerifyOtpUrl(base), email, otp))]);
      AnswerVerify(base, asked, reply, profile).(verifyButton := Button(false, VerifyLabel))
  }

  /** A user action on the page. The resend link has no handler of its own: it
      clicks the send button. */
  datatype Event =
    | LoginTabClick
    | SignupTabClick
    | SendClick(email: string, reply: Reply)
    | ResendClick(email: string, reply: Reply)
    | VerifyClick(otp: string, email: string, reply: Reply, profile: Reply)

  /** An event that moves the page to the code form: a send, direct or through
      the resend link, with a non-blank email and an ok response. */
  predicate Advances(e: Event) {
    (e.SendClick? || e.ResendClick?) && Trim(e.email) != [] && Accepted(e.reply)
  }

  /** Between events both buttons are enabled, the tabs agree with the intent,
      and a page that has navigated did so to one of the two targets after
      storing a credential. */
  predicate Settled(v: View) {
    !v.sendButton.disabled && !v.verifyButton.disabled && TabsAgree(v)
    && (v.location.Some? ==>
          v.storedToken.Some? && v.location.value in {DashboardPage, OnboardingPage})
  }

  /** One event's effect: a tab click selects its mode, and the resend link
      does exactly what a click on the send button does. */
  function Apply(base: string, v: View, e: Event): (r: View)
    ensures e.LoginTabClick? ==> r.intent == "login" && r.tabs == Tabs(true, false)
    ensures e.SignupTabClick? ==> r.intent == "signup" && r.tabs == Tabs(false, true)
  {
    match e
    case LoginTabClick => SetMode(v, "login")
    case SignupTabClick => SetMode(v, "signup")
    case SendClick(email, reply) => SendOtp(base, v, email, reply)
    case ResendClick(email, reply) => SendOtp(base, v, email, reply)
    case VerifyClick(otp, email, reply, profile) => VerifyOtp(base, v, otp, email, reply, profile)
  }

  /** Clicking the resend link and clicking the send button with the same
      field value and reply lead to the same page. */
  lemma ResendIsSend(base: string, v: View, email: string, reply: Reply)
    ensures Apply(base, v, ResendClick(email, reply)) == Apply(base, v, SendClick(email, reply))
  {
  }

  /** An event moves the page to the code form exactly when it advances, and
      never moves it back. */
  lemma ApplyStep(base: string, v: View, e: Event)
    ensures Apply(base, v, e).step == OtpStep <==> v.step == OtpStep || Advances(e)
  {
  }

  /** An event keeps a settled page settled. */
  lemma ApplyKeepsSettled(base: string, v: View, e: Event)
    requires Settled(v)
    ensures Settled(Apply(base, v, e))
  {
  }

  /** The page after a sequence of events. */
  function Run(base: string, v: View, events: seq<Event>): View
    decreases |events|
  {
    if events == [] then v else Run(base, Apply(base, v, events[0]), events[1..])
  }

  /** Some event of the sequence advances. */
  predicate AnyAdvances(events: seq<Event>)
    decreases |events|
  {
    events != [] && (Advances(events[0]) || AnyAdvances(events[1..]))
  }

  /** `AnyAdvances` says that some event advances. */
  lemma {:induction false} AnyAdvancesIff(events: seq<Event>)
    ensures AnyAdvances(events) <==> exists i :: 0 <= i < |events| && Advances(events[i])
    decreases |events|
  {
    if events != [] {
      var rest := events[1..];
      AnyAdvancesIff(rest);
      if exists i :: 0 <= i < |events| && Advances(events[i]) {
        var i :| 0 <= i < |events| && Advances(events[i]);
        if i > 0 {
          assert rest[i - 1] == events[i];
        }
      }
      if exists j :: 0 <= j < |rest| && Advances(rest[j]) {
        var j :| 0 <= j < |rest| && Advances(rest[j]);
        assert events[j + 1] == rest[j];
      }
    }
  }

  /** The code form is showing after a run exactly when it was showing before
      or some event of the run advanced: the step never goes back. */
  lemma {:induction false} RunStep(base: string, v: View, events: seq<Event>)
    ensures Run(base, v, events).step == OtpStep
            <==> v.step == OtpStep || exists i :: 0 <= i < |events| && Advances(events[i])
  {
    RunStepAdvances(base, v, events);
    AnyAdvancesIff(events);
  }

  /** `RunStep` with the recursive form of "some event advances". */
  lemma {:induction false} RunStepAdvances(base: string, v: View, events: seq<Event>)
    ensures Run(base, v, events).step == OtpStep <==> v.step == OtpStep || AnyAdvances(events)
    decreases |events|
  {
    if events != [] {
      ApplyStep(base, v, events[0]);
      RunStepAdvances(base, Apply(base, v, events[0]), events[1..]);
    }
  }

  /** Every exit path of every handler leaves the buttons enabled and the tabs
      in agreement with the intent, over any number of events. */
  lemma {:induction false} RunKeepsSettled(base: string, v: View, events: seq<Event>)
    requires Settled(v)
    ensures Settled(Run(base, v, events))
    decreases |events|
  {
    if events != [] {
      ApplyKeepsSettled(base, v, events[0]);
      RunKeepsSettled(base, Apply(base, v, events[0]), events[1..]);
    }
  }
}
