# Tinko login page: the OTP sign-in controller

This project models the client-side script of the Tinko pre-launch site's login
page (`tinko_prelaunch_landing_page/auth.js`). The script does the following:

- It picks the backend from the page's hostname.
- It switches between the "login" and "signup" intents.
- It sends a one-time code to an email address.
- It verifies the code the user types.
- It stores the access token it gets back.
- It navigates to the dashboard or to onboarding, depending on the profile
  lookup.

The model has six modules:

- `Wrappers`: the `Option` type.
- `Js`: the JavaScript value semantics the script relies on. That is
  truthiness, conversion to a string (including the numerals of safe integers) and
  `String.prototype.trim` with ECMAScript's whitespace set.
- `Http`: what a `fetch` hands back. A reply is a response with a status and a
  body, or a network error. A body may be something `res.json()` rejects, JSON
  `null`, an object or another JSON value. `res.ok` is a status from 200 to 299.
- `Endpoints`: the choice of `API_BASE`, the URLs, the storage key and the two
  navigation targets.
- `AuthFlow`: the page state as a value (`View`) and one transition per
  handler (`SetMode`, `SetMessage`, `SendOtp`, `VerifyOtp`,
  `PostLoginRedirect`). The transitions are followed by event sequences
  (`Apply`, `Run`) and the lemmas about them.
  - DOM writes become fields: the visible step, the status line, the header,
    the tab highlight, and each button's disabled flag and label.
  - `fetch` and `alert` calls become an ordered log of effects.
  - `localStorage` becomes the stored token.
  - `window.location.href` becomes the location.
- `Controller`: the same page as a class (`AuthPage`) whose fields the handlers
  update in place.
  - There is one method per handler. Each follows the source statement by
    statement, including the `try`/`finally` structure.
  - Each method's postcondition ties the new state to the `AuthFlow`
    transition of the same name.

The network replies are inputs: every handler that fetches takes the reply it
gets as a parameter. The verify handler also takes the reply of the profile
lookup that may follow.

In three places the code behaves in ways a reader might not expect, and the
model follows the code:

- The verify handler parses the response body whatever its HTTP status. An
  error response carrying a truthy `access_token` therefore logs the user in.
- A failed send whose body is not JSON shows "Backend unreachable" rather than
  "Failed to send OTP.". The same goes for a verify reply whose body is not
  JSON or is `null`. In each case `res.json()`, or the property read on
  `null`, throws into the `catch` branch.
- The intent is whatever string `setMode` is given. Only "login" selects the
  login styling; any other value selects signup.

## Model

| member | source | states |
|---|---|---|
| Endpoints.ApiBase | tinko_prelaunch_landing_page/auth.js:4-14 | The local server is chosen exactly when the hostname is empty, `localhost` or `127.0.0.1`; production is chosen exactly otherwise. |
| Js.Truthy | tinko_prelaunch_landing_page/auth.js:148 | A value is falsy exactly when it is undefined, null, false, 0 or the empty string; every other value passes `if (v)` and `v \|\| w`. |
| Js.Text | tinko_prelaunch_landing_page/auth.js:180-186 | A string converts to itself, undefined and null to their keywords, a boolean to "true" or "false", and a number to a numeral that reads back as the number. |
| Js.NumberTextRoundTrip | tinko_prelaunch_landing_page/auth.js:180 | The text of a safe integer, sign included, reads back as that integer. |
| Js.TrimStart | tinko_prelaunch_landing_page/auth.js:92 | The result is a suffix of the input that is empty or does not start with whitespace. |
| Js.TrimEnd | tinko_prelaunch_landing_page/auth.js:92 | The result is a prefix of the input that is empty or does not end with whitespace. |
| Js.Trim | tinko_prelaunch_landing_page/auth.js:92 | The result is an infix of the input, starting after the leading whitespace, whose first and last characters are not whitespace. |
| Js.TrimStartDropsWhitespace | tinko_prelaunch_landing_page/auth.js:92 | Every character removed from the front is whitespace. |
| Js.TrimEndDropsWhitespace | tinko_prelaunch_landing_page/auth.js:92 | Every character removed from the back is whitespace. |
| Js.TrimKeepsAllElse | tinko_prelaunch_landing_page/auth.js:92 | Every non-whitespace character of the input lies inside the trimmed part. |
| Js.TrimEmptyIff | tinko_prelaunch_landing_page/auth.js:92-93 | A trimmed field is empty, so the pre-flight check fails, exactly when the field is entirely whitespace. |
| Js.DigitChar | tinko_prelaunch_landing_page/auth.js:112 | A digit value becomes the decimal digit character with that value. |
| Js.NatDigits | tinko_prelaunch_landing_page/auth.js:112 | The numeral of a natural number is a non-empty string of digits with no leading zero unless the number is 0. |
| Js.NatDigitsRoundTrip | tinko_prelaunch_landing_page/auth.js:112 | Reading the numeral back gives the number: the conversion loses nothing. |
| Js.NumberText | tinko_prelaunch_landing_page/auth.js:112 | For a safe integer `n`, `String(n)` starts with a minus sign exactly when `n` is negative, followed by the numeral of the magnitude. |
| Http.Property | tinko_prelaunch_landing_page/auth.js:145-148 | For the two names the script reads, `detail` and `access_token`: reading throws exactly when the body is not JSON or is `null`, a present field yields its value, and any other body yields a falsy value. |
| Http.IsOk | tinko_prelaunch_landing_page/auth.js:190 | `res.ok` holds exactly for a status from 200 to 299, so never for 404. |
| Http.Accepted | tinko_prelaunch_landing_page/auth.js:106 | A reply is ok exactly when it is a response with a status from 200 to 299; a rejected `fetch` never is. |
| Endpoints.SendOtpUrl | tinko_prelaunch_landing_page/auth.js:100 | The send-OTP URL is the chosen base followed by `/v1/auth/email/send-otp`. |
| Endpoints.VerifyOtpUrl | tinko_prelaunch_landing_page/auth.js:139 | The verify-OTP URL is the chosen base followed by `/v1/auth/email/verify-otp`. |
| Endpoints.ProfileUrl | tinko_prelaunch_landing_page/auth.js:17 | The profile URL is the chosen base followed by `/v1/customer/profile`. |
| AuthFlow.SetMessage | tinko_prelaunch_landing_page/auth.js:80-84 | The status line holds the message and the error flag, and nothing else changes. |
| AuthFlow.SetMode | tinko_prelaunch_landing_page/auth.js:51-74 | The intent becomes the mode and the status line is cleared. The login tab is highlighted exactly when the mode is "login" and the signup tab exactly otherwise, so exactly one is highlighted. Header and send label follow the mode, and nothing else changes. |
| AuthFlow.SendFeedback | tinko_prelaunch_landing_page/auth.js:106-116 | The status is an error exactly when the reply is not ok. Each outcome maps to its message: sent, the server's truthy `detail`, the fallback, or unreachable. |
| AuthFlow.AnswerSend | tinko_prelaunch_landing_page/auth.js:106-116 | Handling the send reply sets the status to its feedback and shows the code form exactly when the reply is ok. It changes nothing else. |
| AuthFlow.SendOtp | tinko_prelaunch_landing_page/auth.js:91-121 | A blank email only raises the alert and sends nothing. Otherwise exactly one send request is logged, carrying the trimmed email and the current intent. The button ends enabled with its original label, the status is the reply's feedback, and the step advances only on an ok reply. Intent, tabs, header, verify button, token and location are unchanged. |
| AuthFlow.ReadToken | tinko_prelaunch_landing_page/auth.js:145-153 | A token is read exactly when the reply is a response whose parsed body has a truthy `access_token`. The read fails exactly on a network error or a body the property read throws on. |
| AuthFlow.RedirectTarget | tinko_prelaunch_landing_page/auth.js:190-199 | The target is onboarding exactly when the profile lookup answers 404, and the dashboard exactly otherwise, including a network error. |
| AuthFlow.PostLoginRedirect | tinko_prelaunch_landing_page/auth.js:178-201 | The token is stored and one profile request with the `Bearer` header is logged. The page navigates to the redirect target, and nothing else changes. |
| AuthFlow.AnswerVerify | tinko_prelaunch_landing_page/auth.js:145-156 | A truthy token gives a success status, stores the token, logs the profile lookup and navigates. No token gives "Invalid OTP.". A throw gives the unreachable error and leaves token and location alone. |
| AuthFlow.VerifyOtp | tinko_prelaunch_landing_page/auth.js:129-161 | A blank code only raises the alert. Otherwise the verify request with the trimmed email and code is logged and the verify button ends enabled as "Verify OTP". A token is stored, and navigation happens, if and only if the reply carries a truthy `access_token`. The step, intent, tabs, header and send button are unchanged. |
| AuthFlow.Apply | tinko_prelaunch_landing_page/auth.js:46-49 | The login tab selects the "login" intent and highlights only the login tab; the signup tab selects "signup" and highlights only the signup tab. |
| AuthFlow.ResendIsSend | tinko_prelaunch_landing_page/auth.js:168-172 | Clicking the resend link and clicking the send button lead to the same page. |
| AuthFlow.ApplyStep | tinko_prelaunch_landing_page/auth.js:106-109 | After one event the code form shows exactly when it showed before or the event was an ok send of a non-blank email. |
| AuthFlow.ApplyKeepsSettled | tinko_prelaunch_landing_page/auth.js:117-120 | Every exit path of every handler leaves both buttons enabled, the tabs in agreement with the intent, and any navigation preceded by a stored token. |
| AuthFlow.RunStep | tinko_prelaunch_landing_page/auth.js:106-109 | Over any event sequence the code form shows at the end exactly when it showed at the start or some event advanced. Step 1 to step 2 is forward-only. |
| AuthFlow.RunStepAdvances | tinko_prelaunch_landing_page/auth.js:106-109 | The same as `RunStep`, with "some event advanced" stated recursively. |
| AuthFlow.RunKeepsSettled | tinko_prelaunch_landing_page/auth.js:117-160 | A settled page stays settled over any sequence of events, so the `finally` blocks restore the buttons on every path. |
| Controller.AuthPage.constructor | tinko_prelaunch_landing_page/auth.js:4-40 | `API_BASE` comes from the hostname, the intent starts as "login", and the markup's state is otherwise untouched. |
| Controller.AuthPage.SetMessage | tinko_prelaunch_landing_page/auth.js:80-84 | The status line holds the message and the error flag. |
| Controller.AuthPage.SetMode | tinko_prelaunch_landing_page/auth.js:51-74 | The new state is `AuthFlow.SetMode` of the old one, and the tabs agree with the intent. |
| Controller.AuthPage.TrySendReply | tinko_prelaunch_landing_page/auth.js:106-116 | The new state is `AuthFlow.AnswerSend` of the old one. |
| Controller.AuthPage.ClickSendOtp | tinko_prelaunch_landing_page/auth.js:91-121 | The new state is `AuthFlow.SendOtp` of the old one. The send label is restored, the button is enabled after any request, and the step never goes back. |
| Controller.AuthPage.ClickResend | tinko_prelaunch_landing_page/auth.js:168-172 | Clicking resend has exactly the effect of clicking send. |
| Controller.AuthPage.HandlePostLoginRedirect | tinko_prelaunch_landing_page/auth.js:178-201 | The token is stored, the profile request is appended to the log, and the location is the redirect target. |
| Controller.AuthPage.TryVerifyReply | tinko_prelaunch_landing_page/auth.js:145-156 | The new state is `AuthFlow.AnswerVerify` of the old one. |
| Controller.AuthPage.ClickVerifyOtp | tinko_prelaunch_landing_page/auth.js:129-161 | The new state is `AuthFlow.VerifyOtp` of the old one. |

## Left out

- DOM lookups and the `if (el)` and `?.` guards around missing elements. The model assumes every element exists. A missing email field would make the trimmed email `undefined` and so blank.
- CSS classes and colours are not modelled. The tab highlight is one flag per tab; the message colour is the error flag.
- `console.log` and `console.error` are not modelled. They have no effect on the page.
- Request headers and JSON serialisation are not modelled. A request is recorded as its URL and its fields.
- Asynchrony: each handler runs to completion before the next event.
  - The transient "Sending..." and "Verifying..." labels and the disabled flags are visible only inside a handler.
  - Two effects of interleaving are not modelled. A tab click while a send is pending would have its label overwritten when the `finally` block restores the old one. A request that never settles would leave its button disabled.
- Clicks on a disabled button are not filtered. When the page's markup starts with both buttons enabled and the highlighted tab agreeing with the "login" intent, both buttons stay enabled between events (`AuthFlow.RunKeepsSettled`), so no click the model sees would be suppressed. From other initial markup this is not promised.
- AuthFlow.PostLoginRedirect: does not model `localStorage.setItem` throwing (storage full or disabled). In the source that path stores nothing, skips the profile lookup and still navigates to the dashboard.
- Navigation does not unload the page in the model: events after the location is set are still applied.
- `alert` does not block. It is logged as an effect.
- Js.NumberText: covers only safe integers, magnitude at most 2^53 - 1. Larger JSON numbers, which JavaScript rounds when parsing and writes in exponent notation from 10^21 on, are outside the model, as are fractions, `NaN`, infinities and `-0`.
- Http.Property: covers only the property names `detail` and `access_token`. Inherited names such as `constructor` or `length` would be truthy in JavaScript and are not modelled. An object or array carries its string form as given data.
- The page's markup before the script runs (which tab is highlighted, the initial labels) is a parameter of the constructor. It is not fixed by the model.
- `test_payment_failure.py` is not part of this model. It is an integration script for a payment endpoint and does not touch the login page.
