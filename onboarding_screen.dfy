// The sign-in screen of src/components/OnboardingScreen.tsx: an email step
// that asks the server to send a code, and a code step that verifies it and
// stores the session. Each handler is split at its `await`: the Begin half
// runs up to the request, the Finish half applies the answer (None when the
// request throws). The clock is a parameter.

module OnboardingView {
  import opened Js
  import JsText
  import JsNumber
  import BrowserStorage
  import ApiClient

  const UserIdKey := "userId"
  const UserNameKey := "userName"
  const UserEmailKey := "userEmail"

  /**
   * The `/auth/verify-otp` answer as the handler reads it: `response.success`,
   * `response.session?.access_token`, `response.user?.id` and
   * `response.user?.name` (None where the path is missing).
   */
  datatype VerifyReply = VerifyReply(success: JsValue, accessToken: Option<string>,
                                     userId: Option<string>, userName: Option<string>)

  /** A value interpolated into a template literal: a missing one reads `undefined`. */
  function Interpolated(v: Option<string>): (s: string)
    ensures v.Some? ==> s == v.value
    ensures v.None? ==> s == "undefined"
  {
    if v.Some? then v.value else "undefined"
  }

  /** The token kept after a verification at time `now`: the session's, or a local `auth_<id>_<now>` one. */
  function SessionToken(reply: VerifyReply, now: int): (t: string)
    ensures t != ""
    ensures TruthyText(reply.accessToken) ==> t == reply.accessToken.value
    ensures !TruthyText(reply.accessToken) ==>
      && JsText.StartsWith(t, "auth_" + Interpolated(reply.userId) + "_")
      && JsNumber.ParseInt(t[|"auth_" + Interpolated(reply.userId) + "_"|..]) == Some(now)
  {
    if TruthyText(reply.accessToken) then reply.accessToken.value
    else
      var prefix := "auth_" + Interpolated(reply.userId) + "_";
      var t := prefix + JsNumber.IntToText(now);
      assert t[|prefix|..] == JsNumber.IntToText(now);
      JsNumber.ParseIntText(now);
      t
  }

  /** `x || ''` for an optional text. */
  function OrEmpty(v: Option<string>): (s: string)
    ensures TruthyText(v) ==> s == v.value
    ensures !TruthyText(v) ==> s == ""
  {
    if v.Some? then v.value else ""
  }

  /** The storage a successful verification leaves behind. */
  function Signed(items: map<string, string>, reply: VerifyReply, email: string, now: int): (r: map<string, string>)
    ensures r.Keys == items.Keys + {ApiClient.AuthTokenKey, UserIdKey, UserNameKey, UserEmailKey}
    ensures r[ApiClient.AuthTokenKey] == SessionToken(reply, now)
    ensures r[UserIdKey] == OrEmpty(reply.userId) && r[UserNameKey] == OrEmpty(reply.userName)
    ensures r[UserEmailKey] == email
    ensures forall k :: k in items && k !in {ApiClient.AuthTokenKey, UserIdKey, UserNameKey, UserEmailKey} ==> r[k] == items[k]
  {
    var withToken := items[ApiClient.AuthTokenKey := SessionToken(reply, now)];
    var withId := withToken[UserIdKey := OrEmpty(reply.userId)];
    var withName := withId[UserNameKey := OrEmpty(reply.userName)];
    assert ApiClient.AuthTokenKey != UserIdKey && ApiClient.AuthTokenKey != UserNameKey
      && ApiClient.AuthTokenKey != UserEmailKey && UserIdKey != UserNameKey
      && UserIdKey != UserEmailKey && UserNameKey != UserEmailKey;
    withName[UserEmailKey := email]
  }

  class OnboardingScreen {
    var email: string
    var showOtp: bool
    var loading: bool
    const tokens: BrowserStorage.CachedValue

    constructor(tokens: BrowserStorage.CachedValue)
      ensures email == "" && !showOtp && !loading && this.tokens == tokens
    {
      email := "";
      showOtp := false;
      loading := false;
      this.tokens := tokens;
    }

    method SetEmail(text: string)
      modifies this
      ensures email == text && showOtp == old(showOtp) && loading == old(loading)
    {
      email := text;
    }

    /** `handleSendOTP` up to the request: an address outside the campus domain is refused with no request. */
    method BeginSendOtp() returns (sent: Option<string>)
      modifies this
      ensures sent.Some? <==> JsText.Contains(old(email), "@bennett.edu.in")
      ensures sent.Some? ==> sent.value == email && loading
      ensures sent.None? ==> loading == old(loading)
      ensures email == old(email) && showOtp == old(showOtp)
    {
      if !JsText.Contains(email, "@bennett.edu.in") {
        return None;
      }
      loading := true;
      sent := Some(email);
    }

    /** The rest of `handleSendOTP`: `reply` is `response.success`, None when the request threw. */
    method FinishSendOtp(reply: Option<JsValue>)
      modifies this
      ensures showOtp == (old(showOtp) || (reply.Some? && Truthy(reply.value)))
      ensures !loading && email == old(email)
    {
      if reply.Some? && Truthy(reply.value) {
        showOtp := true;
      }
      loading := false;
    }

    /** The resend link: back to the email step, then `handleSendOTP` again. */
    method Resend() returns (sent: Option<string>)
      modifies this
      ensures sent.Some? <==> JsText.Contains(old(email), "@bennett.edu.in")
      ensures sent.Some? ==> sent.value == email && loading
      ensures sent.None? ==> loading == old(loading)
      ensures email == old(email) && !showOtp
    {
      showOtp := false;
      sent := BeginSendOtp();
    }

    /** `handleVerifyOTP(otp)` up to the request, which carries the email and the code. */
    method BeginVerify(otp: string) returns (request: (string, string))
      modifies this
      ensures request == (old(email), otp) && loading
      ensures email == old(email) && showOtp == old(showOtp)
    {
      loading := true;
      request := (email, otp);
    }

    /**
     * The rest of `handleVerifyOTP`: a successful answer stores the session
     * token through the token cache and the user's id, name and `email` in
     * storage, and completes the screen; any other outcome stores nothing.
     */
    method FinishVerify(email: string, reply: Option<VerifyReply>, now: int) returns (completed: bool)
      requires tokens.key == ApiClient.AuthTokenKey
      modifies this, tokens, tokens.store
      ensures completed <==> reply.Some? && Truthy(reply.value.success)
      ensures completed ==>
        && tokens.memory == Some(SessionToken(reply.value, now))
        && tokens.store.items == Signed(old(tokens.store.items), reply.value, email, now)
      ensures !completed ==> tokens.memory == old(tokens.memory) && tokens.store.items == old(tokens.store.items)
      ensures !loading && this.email == old(this.email) && showOtp == old(showOtp)
    {
      if reply.Some? && Truthy(reply.value.success) {
        var token := SessionToken(reply.value, now);
        ApiClient.SetAuthToken(tokens, token);
        tokens.store.SetItem(UserIdKey, OrEmpty(reply.value.userId));
        tokens.store.SetItem(UserNameKey, OrEmpty(reply.value.userName));
        tokens.store.SetItem(UserEmailKey, email);
        completed := true;
      } else {
        completed := false;
      }
      loading := false;
    }
  }

  /** After a verification the token cache answers the stored session token, so later requests carry it. */
  lemma VerifiedTokenSent(items: map<string, string>, reply: VerifyReply, email: string, now: int, anonKey: string)
    ensures var stored := Signed(items, reply, email, now);
      var token := BrowserStorage.CachedRead(Some(SessionToken(reply, now)), stored, ApiClient.AuthTokenKey);
      && token == BrowserStorage.CachedRead(None, stored, ApiClient.AuthTokenKey)
      && ApiClient.AuthorizationHeader(token, anonKey) == "Bearer " + SessionToken(reply, now)
  {
  }
}
