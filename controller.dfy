/** The login page as the script drives it: the global `currentIntent` and
    the DOM properties the script writes are the fields of one object, and
    each event handler is a method that updates them in place. Every handler
    is specified by the transition of the same name in `AuthFlow`. */
module Controller {
  import opened Wrappers
  import opened Js
  import opened Http
  import opened Endpoints
  import opened AuthFlow

  class AuthPage {
    const apiBase: string

    var currentIntent: string
    var step: Step                 // which of `step1` and `step2` is not hidden
    var message: Status            // `loginMessage`
    var header: string             // `authHeader.textContent`
    var tabs: Tabs                 // `tabLogin` and `tabSignup`
    var sendButton: Button         // `sendOtpBtn`
    var verifyButton: Button       // `verifyOtpBtn`
    var storedToken: Option<string>
    var location: Option<string>   // `window.location.href` once assigned
    var effects: seq<Effect>       // every `fetch` and `alert`, in order

    /** The page state as a value. */
    function Snapshot(): View
      reads this
    {
      View(currentIntent, step, message, header, tabs, sendButton, verifyButton,
           storedToken, location, effects)
    }

    /** Loading the script on a page served from `hostname` whose markup is in
        state `page`: it fixes `API_BASE`, sets `currentIntent` to "login" and
        touches nothing else. */
    constructor (hostname: string, page: View)
      ensures apiBase == ApiBase(hostname)
      ensures Snapshot() == page.(intent := DefaultIntent)
    {
      apiBase := ApiBase(hostname);
      currentIntent := DefaultIntent;
      step := page.step;
      message := page.status;
      header := page.header;
      tabs := page.tabs;
      sendButton := page.sendButton;
      verifyButton := page.verifyButton;
      storedToken := page.storedToken;
      location := page.location;
      effects := page.effects;
    }

    method SetMessage(msg: string, isError: bool)
      modifies this`message
      ensures message == Status(msg, isError)
    {
      message := Status(msg, isError);
    }

    method SetMode(mode: string)
      modifies this
      ensures Snapshot() == AuthFlow.SetMode(old(Snapshot()), mode)
      ensures TabsAgree(Snapshot())
    {
      currentIntent := mode;
      SetMessage("", false);
      if mode == "login" {
        tabs := Tabs(true, false);
        header := WelcomeBackHeader;
        sendButton := sendButton.(text := SendLoginOtpLabel);
      } else {
        tabs := Tabs(false, true);
        header := GetStartedHeader;
        sendButton := sendButton.(text := CreateAccountLabel);
      }
    }

    /** The send handler's `try` block once the request is out, given its
        reply: the status line, and the step when `res.ok`. */
    method TrySendReply(reply: Reply)
      modifies this`message, this`step
      ensures Snapshot() == AnswerSend(apiBase, old(Snapshot()), reply)
    {
      match reply {
        case NetworkError =>
          SetMessage(UnreachableMessage(apiBase), true);
        case Response(status, body) =>
          if IsOk(status) {
            SetMessage(OtpSentMessage, false);
            step := OtpStep;
          } else {
            match Property(body, "detail") {
              case None =>
                SetMessage(UnreachableMessage(apiBase), true);
              case Some(detail) =>
                SetMessage(if Truthy(detail) then Text(detail) else SendFailedMessage, true);
            }
          }
      }
    }

    /** The send button's click handler, given the email field's value and
        what the send-OTP request comes back with. */
    method ClickSendOtp(emailValue: string, reply: Reply)
      modifies this
      ensures Snapshot() == AuthFlow.SendOtp(apiBase, old(Snapshot()), emailValue, reply)
      ensures sendButton.text == old(sendButton.text)
      ensures Trim(emailValue) != [] ==> !sendButton.disabled
      ensures old(step) == OtpStep ==> step == OtpStep
    {
      var email := Trim(emailValue);
      if email == [] {
        effects := effects + [Alert(EnterEmailAlert)];
        assert Snapshot() == old(Snapshot()).(effects := old(effects) + [Alert(EnterEmailAlert)]);
        return;
      }
      sendButton := sendButton.(disabled := true);
      var originalText := sendButton.text;
      sendButton := sendButton.(text := SendingLabel);
      // try
      effects := effects + [Fetch(SendOtpRequest(SendOtpUrl(apiBase), email, currentIntent))];
      ghost var pending := Snapshot();
      assert pending == old(Snapshot()).(sendButton := Button(true, SendingLabel),
        effects := old(effects) + [Fetch(SendOtpRequest(SendOtpUrl(apiBase), email, old(currentIntent)))]);
      TrySendReply(reply);
      // finally
      sendButton := sendButton.(disabled := false);
      sendButton := sendButton.(text := originalText);
      assert Snapshot() == AnswerSend(apiBase, pending, reply).(sendButton := Button(false, originalText));
    }

    /** The resend link's click handler: it clicks the send button, so it has
        exactly the send handler's effect. */
    method ClickResend(emailValue: string, reply: Reply)
      modifies this
      ensures Snapshot() == AuthFlow.SendOtp(apiBase, old(Snapshot()), emailValue, reply)
    {
      ClickSendOtp(emailValue, reply);
    }

    /** `handlePostLoginRedirect(token)`, given what the profile lookup comes
        back with. */
    method HandlePostLoginRedirect(token: string, profile: Reply)
      modifies this`storedToken, this`effects, this`location
      ensures storedToken == Some(token)
      ensures effects == old(effects) + [Fetch(ProfileRequest(ProfileUrl(apiBase), "Bearer " + token))]
      ensures location == Some(RedirectTarget(profile))
    {
      storedToken := Some(token);
      effects := effects + [Fetch(ProfileRequest(ProfileUrl(apiBase), "Bearer " + token))];
      match profile {
        case NetworkError =>
          location := Some(DashboardPage);
        case Response(status, _) =>
          if IsOk(status) {
            location := Some(DashboardPage);
          } else if status == 404 {
            location := Some(OnboardingPage);
          } else {
            location := Some(DashboardPage);
          }
      }
    }

    /** The verify handler's `try` block once the request is out, given its
        reply and the profile lookup's. */
    method TryVerifyReply(reply: Reply, profile: Reply)
      modifies this`message, this`storedToken, this`effects, this`location
      ensures Snapshot() == AnswerVerify(apiBase, old(Snapshot()), reply, profile)
    {
      match reply {
        case NetworkError =>
          SetMessage(UnreachableMessage(apiBase), true);
        case Response(_, body) =>
          match Property(body, "access_token") {
            case None =>
              SetMessage(UnreachableMessage(apiBase), true);
            case Some(accessToken) =>
              if Truthy(accessToken) {
                SetMessage(SuccessMessage, false);
                HandlePostLoginRedirect(Text(accessToken), profile);
              } else {
                SetMessage(InvalidOtpMessage, true);
              }
          }
      }
    }

    /** The verify button's click handler, given the code and email fields'
        values, what the verify-OTP request comes back with, and what the
        profile lookup would come back with. */
    method ClickVerifyOtp(otpValue: string, emailValue: string, reply: Reply, profile: Reply)
      modifies this
      ensures Snapshot() == AuthFlow.VerifyOtp(apiBase, old(Snapshot()), otpValue, emailValue, reply, profile)
    {
      var otp := Trim(otpValue);
      var email := Trim(emailValue);
      if otp == [] {
        effects := effects + [Alert(EnterOtpAlert)];
        assert Snapshot() == old(Snapshot()).(effects := old(effects) + [Alert(EnterOtpAlert)]);
        return;
      }
      verifyButton := verifyButton.(disabled := true);
      verifyButton := verifyButton.(text := VerifyingLabel);
      // try
      effects := effects + [Fetch(VerifyOtpRequest(VerifyOtpUrl(apiBase), email, otp))];
      ghost var asked := Snapshot();
      assert asked == old(Snapshot()).(verifyButton := Button(true, VerifyingLabel),
        effects := old(effects) + [Fetch(VerifyOtpRequest(VerifyOtpUrl(apiBase), email, otp))]);
      TryVerifyReply(reply, profile);
      // finally
      verifyButton := verifyButton.(disabled := false);
      verifyButton := verifyButton.(text := VerifyLabel);
      assert Snapshot() == AnswerVerify(apiBase, asked, reply, profile).(verifyButton := Button(false, VerifyLabel));
    }
  }
}
