// The client's request helpers, src/utils/api.ts: the cached auth token, the
// headers and error handling every call shares, the body of a swipe request
// and the leaderboard query string. `fetch` is a parameter: a call is given
// the response the server sent.

module ApiClient {
  import opened Js
  import Auth
  import BrowserStorage

  const AuthTokenKey := "authToken"

  /** `setAuthToken(token)` */
  method SetAuthToken(cache: BrowserStorage.CachedValue, token: string)
    requires cache.key == AuthTokenKey
    modifies cache, cache.store
    ensures cache.memory == Some(token) && cache.store.items == old(cache.store.items)[AuthTokenKey := token]
  {
    cache.Set(token);
  }

  /** `getAuthToken()` */
  method GetAuthToken(cache: BrowserStorage.CachedValue) returns (token: Option<string>)
    requires cache.key == AuthTokenKey
    modifies cache
    ensures token == BrowserStorage.CachedRead(old(cache.memory), cache.store.items, AuthTokenKey)
    ensures cache.memory == token && cache.store.items == old(cache.store.items)
  {
    token := cache.Get();
  }

  /** `clearAuthToken()` */
  method ClearAuthToken(cache: BrowserStorage.CachedValue)
    requires cache.key == AuthTokenKey
    modifies cache, cache.store
    ensures cache.memory == None && cache.store.items == old(cache.store.items) - {AuthTokenKey}
  {
    cache.Clear();
  }

  /** The `Authorization` header: the token, or the public anon key when there is none. */
  function AuthorizationHeader(token: Option<string>, anonKey: string): (h: string)
    ensures TruthyText(token) ==> h == "Bearer " + token.value
    ensures !TruthyText(token) ==> h == "Bearer " + anonKey
  {
    "Bearer " + (if TruthyText(token) then token.value else anonKey)
  }

  /** A stored session token without spaces reaches the strict edge function as that token. */
  lemma HeaderAccepted(token: string, anonKey: string, getUser: string -> Option<string>)
    requires token != "" && ' ' !in token
    ensures Auth.VerifyUserStrict(Some(AuthorizationHeader(Some(token), anonKey)), getUser) == getUser(token)
  {
    Auth.StrictAcceptsBearer(token, getUser);
  }

  /** The message of the `Error` thrown for `error.error || 'Request failed'`. */
  datatype ErrorText = Message(text: string) | Stringified(value: JsValue)

  /** How a call ends: the parsed body, or a thrown error. */
  datatype CallResult = Data(body: Body) | Thrown(error: ErrorText) | BadJson

  /**
   * `apiCall` after `fetch`: `ok` is `response.ok`, `body` the parsed JSON
   * (None when the body is not JSON).
   */
  function ApiResult(ok: bool, body: Option<Body>): (r: CallResult)
    ensures ok ==> (r.Data? <==> body.Some?) && (body.Some? ==> r == Data(body.value))
    ensures !ok ==> r.Thrown?
    ensures !ok && (body.None? || !Truthy(Field(body.value, "error"))) ==> r == Thrown(Message("Request failed"))
    ensures !ok && body.Some? && Field(body.value, "error").Text? && Field(body.value, "error").s != "" ==>
      r == Thrown(Message(Field(body.value, "error").s))
  {
    if ok then
      (if body.Some? then Data(body.value) else BadJson)
    else
      var error := if body.Some? then Field(body.value, "error") else Text("Request failed");
      var shown := Or(error, Text("Request failed"));
      Thrown(if shown.Text? then Message(shown.s) else Stringified(shown))
  }

  /** The edge functions' own error replies surface with their text. */
  lemma ServerErrorShown(message: string)
    requires message != ""
    ensures ApiResult(false, Some(map["error" := Text(message)])) == Thrown(Message(message))
  {
  }

  /** The JSON body of `api.matches.swipe(id, direction, songId)`. */
  function SwipeBody(swipedUserId: string, direction: string, songId: Option<string>): (b: Body)
    ensures b.Keys == {"swiped_user_id", "song_id", "direction"}
    ensures b["swiped_user_id"] == Text(swipedUserId)
    ensures b["direction"] == (if direction == "left" then Text("skip") else Text("like"))
    ensures b["song_id"] == (if TruthyText(songId) then Text(songId.value) else Null)
  {
    map["swiped_user_id" := Text(swipedUserId),
        "song_id" := (if TruthyText(songId) then Text(songId.value) else Null),
        "direction" := Text(if direction == "left" then "skip" else "like")]
  }

  /** Whatever the screen swipes, the direction sent is one the relational edge functions accept. */
  lemma SwipeDirectionAccepted(swipedUserId: string, direction: string, songId: Option<string>)
    ensures var d := SwipeBody(swipedUserId, direction, songId)["direction"];
      d == Text("like") || d == Text("skip")
    ensures SwipeBody(swipedUserId, direction, songId)["direction"] == Text("like") <==> direction != "left"
  {
  }

  /** The path of `api.leaderboard.get(category)`. */
  function LeaderboardPath(category: Option<string>): (p: string)
    ensures TruthyText(category) && category.value != "All" ==> p == "/leaderboard?category=" + category.value
    ensures !TruthyText(category) || category.value == "All" ==> p == "/leaderboard"
  {
    if TruthyText(category) && category.value != "All" then "/leaderboard?category=" + category.value else "/leaderboard"
  }
}
