/** The shared HTTP client's response interceptor: it passes every outcome
    through unchanged, and when a rejection says the session has expired it
    also logs the user out of the browser. */
module Interceptor {
  import opened Common

  /** The five server messages that mean the token is no longer usable. */
  const ExpiryMessages: set<string> := {
    "Token expired!",
    "Invalid token!",
    "User not found",
    "Token is not valid",
    "Session expired. Please login again"
  }

  const SessionExpiredAlert := "Session expired. Please log in again."

  /** `isAuthExpired`: a 401 whose message is one of the expiry messages. */
  function IsAuthExpired(status: Option<int>, message: Option<string>): (b: bool)
    ensures b <==> status == Some(401) && message.Some? && message.value in ExpiryMessages
  {
    && status.Some? && status.value == 401
    && message.Some?
    && (|| message.value == "Token expired!"
        || message.value == "Invalid token!"
        || message.value == "User not found"
        || message.value == "Token is not valid"
        || message.value == "Session expired. Please login again")
  }

  /** The parts of the browser the interceptor touches: the `token` cookie,
      the page address and the alerts shown so far. */
  class Browser {
    var tokenCookie: Option<string>
    var location: string
    var alerts: seq<string>

    constructor (token: Option<string>, at: string)
      ensures tokenCookie == token && location == at && alerts == []
    {
      tokenCookie := token;
      location := at;
      alerts := [];
    }

    /** One settled request going through the interceptor. The outcome is
        handed on unchanged (a success is returned, a failure re-rejected);
        an expired-session failure clears the cookie, raises the alert and
        moves to `/login`, every time it happens. */
    method Intercept<T>(outcome: Reply<T>) returns (handed: Reply<T>)
      modifies this
      ensures handed == outcome
      ensures outcome.Fail? && IsAuthExpired(outcome.status, outcome.message) ==>
        && tokenCookie == None
        && location == "/login"
        && alerts == old(alerts) + [SessionExpiredAlert]
      ensures !(outcome.Fail? && IsAuthExpired(outcome.status, outcome.message)) ==>
        && tokenCookie == old(tokenCookie)
        && location == old(location)
        && alerts == old(alerts)
    {
      if outcome.Fail? {
        if IsAuthExpired(outcome.status, outcome.message) {
          tokenCookie := None;
          alerts := alerts + [SessionExpiredAlert];
          location := "/login";
        }
      }
      handed := outcome;
    }
  }

  /** A success, a failure other than 401 and a 401 with no message or an
      unlisted one leave the session alone. */
  lemma OnlyListedUnauthorizedExpires(status: Option<int>, message: Option<string>)
    ensures status != Some(401) ==> !IsAuthExpired(status, message)
    ensures message.None? || message.value !in ExpiryMessages ==> !IsAuthExpired(status, message)
    ensures IsAuthExpired(Some(401), Some("Token expired!"))
  {
  }
}
