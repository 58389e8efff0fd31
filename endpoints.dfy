/** The backend the page talks to and the places it navigates to. */
module Endpoints {

  const LocalBase: string := "http://127.0.0.1:8000"
  const ProductionBase: string := "https://tinko-2.onrender.com"

  /** `API_BASE`: the local development server when the page is served from an
      empty hostname, `localhost` or the loopback address, production otherwise. */
  function ApiBase(hostname: string): (base: string)
    ensures base == LocalBase <==> hostname in {"", "localhost", "127.0.0.1"}
    ensures base == ProductionBase <==> hostname !in {"", "localhost", "127.0.0.1"}
  {
    if hostname == "" || hostname == "localhost" || hostname == "127.0.0.1" then LocalBase
    else ProductionBase
  }

  /** The send-OTP endpoint: the base followed by its path. */
  function SendOtpUrl(base: string): (url: string)
    ensures |url| > |base| && url[..|base|] == base && url[|base|..] == "/v1/auth/email/send-otp"
  {
    base + "/v1/auth/email/send-otp"
  }

  /** The verify-OTP endpoint: the base followed by its path. */
  function VerifyOtpUrl(base: string): (url: string)
    ensures |url| > |base| && url[..|base|] == base && url[|base|..] == "/v1/auth/email/verify-otp"
  {
    base + "/v1/auth/email/verify-otp"
  }

  /** `PROFILE_URL`: the base followed by the profile path. */
  function ProfileUrl(base: string): (url: string)
    ensures |url| > |base| && url[..|base|] == base && url[|base|..] == "/v1/customer/profile"
  {
    base + "/v1/customer/profile"
  }

  /** The `localStorage` key the access token is kept under. */
  const TokenKey: string := "tinko_access_token"

  const DashboardPage: string := "dashboard/index.html"
  const OnboardingPage: string := "dashboard/onboarding.html"
}
