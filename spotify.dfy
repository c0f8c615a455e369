// The Spotify sign-in helpers of src/utils/spotify.ts: the OAuth `state`
// round trip (section 10.12 of RFC 6749), the tokens kept in `localStorage`,
// the expiry check and refresh, and the random state string. The token
// endpoints, the clock and `Math.random` are parameters: a call is given the
// token reply (None when the request fails), the time in milliseconds, or
// the draws.

module Spotify {
  import opened Js
  import JsNumber
  import BrowserStorage

  const AccessKey := "spotify_access_token"
  const RefreshKey := "spotify_refresh_token"
  const ExpiresKey := "spotify_token_expires_at"
  const StateKey := "spotify_auth_state"

  const Alphabet := "ABCDEFGHIJKLMNOPQRSTUVWXYZabcdefghijklmnopqrstuvwxyz0123456789"

  /** The JSON a token endpoint answers with. */
  datatype TokenReply = TokenReply(accessToken: string, refreshToken: Option<string>, expiresIn: Option<int>)

  predicate HasExpiry(reply: TokenReply)
  {
    reply.expiresIn.Some? && reply.expiresIn.value != 0
  }

  /** The storage after a token reply at time `now`: access token always, refresh token and expiry when given. */
  function StoreTokens(items: map<string, string>, reply: TokenReply, now: int): (r: map<string, string>)
    ensures r.Keys == items.Keys + {AccessKey} + (if TruthyText(reply.refreshToken) then {RefreshKey} else {})
                      + (if HasExpiry(reply) then {ExpiresKey} else {})
    ensures r[AccessKey] == reply.accessToken
    ensures TruthyText(reply.refreshToken) ==> r[RefreshKey] == reply.refreshToken.value
    ensures HasExpiry(reply) ==> r[ExpiresKey] == JsNumber.IntToText(now + reply.expiresIn.value * 1000)
    ensures forall k :: k in items && k !in {AccessKey, RefreshKey, ExpiresKey} ==> r[k] == items[k]
  {
    var withAccess := items[AccessKey := reply.accessToken];
    var withRefresh := if TruthyText(reply.refreshToken) then withAccess[RefreshKey := reply.refreshToken.value] else withAccess;
    if HasExpiry(reply) then withRefresh[ExpiresKey := JsNumber.IntToText(now + reply.expiresIn.value * 1000)]
    else withRefresh
  }

  datatype Freshness = Missing | Fresh(token: string) | Expired

  /** What `getSpotifyAccessToken` finds at time `now`: no token, a token to use, or one to refresh. */
  function TokenFreshness(items: map<string, string>, now: int): (f: Freshness)
    ensures f.Missing? <==> AccessKey !in items || items[AccessKey] == ""
    ensures f.Fresh? ==> f.token == items[AccessKey]
  {
    if AccessKey !in items || items[AccessKey] == "" then Missing
    else if ExpiresKey in items && items[ExpiresKey] != "" && JsNumber.ParseInt(items[ExpiresKey]).Some?
            && now > JsNumber.ParseInt(items[ExpiresKey]).value then Expired
    else Fresh(items[AccessKey])
  }

  lemma IntToTextNonEmpty(n: int)
    ensures JsNumber.IntToText(n) != ""
  {
    if n >= 0 {
      assert |JsNumber.NatToText(n)| >= 1;
    }
  }

  /** A stored token with an expiry is used until the expiry passes and refreshed after it. */
  lemma ExpiryHonoured(items: map<string, string>, reply: TokenReply, now: int, later: int)
    requires reply.accessToken != "" && HasExpiry(reply)
    ensures var deadline := now + reply.expiresIn.value * 1000;
      TokenFreshness(StoreTokens(items, reply, now), later) == (if later > deadline then Expired else Fresh(reply.accessToken))
  {
    var deadline := now + reply.expiresIn.value * 1000;
    JsNumber.ParseIntText(deadline);
    IntToTextNonEmpty(deadline);
  }

  /** A reply without an expiry leaves the earlier expiry in place, so it still decides freshness. */
  lemma OldExpiryKept(items: map<string, string>, reply: TokenReply, now: int)
    requires !HasExpiry(reply)
    ensures ExpiresKey in StoreTokens(items, reply, now) <==> ExpiresKey in items
    ensures ExpiresKey in items ==> StoreTokens(items, reply, now)[ExpiresKey] == items[ExpiresKey]
  {
  }

  /** `initiateSpotifyAuth()`: with no client id it refuses and stores nothing. */
  method InitiateAuth(session: BrowserStorage.LocalStorage, clientId: string, draws: seq<int>) returns (started: bool)
    requires |draws| == 16 && forall i :: 0 <= i < |draws| ==> 0 <= draws[i] < |Alphabet|
    modifies session
    ensures started <==> clientId != ""
    ensures clientId == "" ==> session.items == old(session.items)
    ensures clientId != "" ==>
      && StateKey in session.items
      && session.items == old(session.items)[StateKey := session.items[StateKey]]
      && |session.items[StateKey]| == 16
      && forall i :: 0 <= i < 16 ==> session.items[StateKey][i] == Alphabet[draws[i]]
  {
    if clientId == "" {
      return false;
    }
    var state := GenerateRandomString(16, draws);
    session.SetItem(StateKey, state);
    started := true;
  }

  /** `exchangeCodeForToken(code, state)`: a state other than the saved one is refused before any request. */
  method ExchangeCode(local: BrowserStorage.LocalStorage, session: BrowserStorage.LocalStorage,
                      state: string, now: int, response: Option<TokenReply>) returns (token: Option<string>)
    modifies local
    ensures session.GetItem(StateKey) != Some(state) ==> token == None && local.items == old(local.items)
    ensures session.GetItem(StateKey) == Some(state) && response.None? ==> token == None && local.items == old(local.items)
    ensures session.GetItem(StateKey) == Some(state) && response.Some? ==>
      token == Some(response.value.accessToken) && local.items == StoreTokens(old(local.items), response.value, now)
  {
    var saved := session.GetItem(StateKey);
    if saved != Some(state) {
      return None;
    }
    if response.None? {
      return None;
    }
    local.items := StoreTokens(local.items, response.value, now);
    token := Some(response.value.accessToken);
  }

  /** `refreshSpotifyToken()`: a failed refresh drops the access and refresh tokens but keeps the expiry. */
  method Refresh(local: BrowserStorage.LocalStorage, now: int, response: Option<TokenReply>) returns (token: Option<string>)
    modifies local
    ensures !TruthyText(old(local.GetItem(RefreshKey))) ==> token == None && local.items == old(local.items)
    ensures TruthyText(old(local.GetItem(RefreshKey))) && response.None? ==>
      token == None && local.items == old(local.items) - {AccessKey, RefreshKey}
    ensures TruthyText(old(local.GetItem(RefreshKey))) && response.Some? ==>
      token == Some(response.value.accessToken)
      && local.items == StoreTokens(old(local.items), response.value.(refreshToken := None), now)
  {
    var refreshToken := local.GetItem(RefreshKey);
    if !TruthyText(refreshToken) {
      return None;
    }
    if response.None? {
      local.RemoveItem(AccessKey);
      local.RemoveItem(RefreshKey);
      return None;
    }
    local.items := StoreTokens(local.items, response.value.(refreshToken := None), now);
    token := Some(response.value.accessToken);
  }

  /** `getSpotifyAccessToken()`: the stored token, refreshed first once its expiry has passed. */
  method GetAccessToken(local: BrowserStorage.LocalStorage, now: int, response: Option<TokenReply>) returns (token: Option<string>)
    modifies local
    ensures old(TokenFreshness(local.items, now)).Missing? ==> token == None && local.items == old(local.items)
    ensures old(TokenFreshness(local.items, now)).Fresh? ==>
      token == Some(old(TokenFreshness(local.items, now)).token) && local.items == old(local.items)
    ensures old(TokenFreshness(local.items, now)).Expired? ==>
      (if TruthyText(old(local.GetItem(RefreshKey))) && response.Some?
       then token == Some(response.value.accessToken) else token == None)
    ensures old(TokenFreshness(local.items, now)).Expired? ==>
      local.items ==
        if !TruthyText(old(local.GetItem(RefreshKey))) then old(local.items)
        else if response.None? then old(local.items) - {AccessKey, RefreshKey}
        else StoreTokens(old(local.items), response.value.(refreshToken := None), now)
  {
    var f := TokenFreshness(local.items, now);
    match f {
      case Missing => token := None;
      case Fresh(t) => token := Some(t);
      case Expired => token := Refresh(local, now, response);
    }
  }

  /** `isSpotifyConnected()` */
  predicate IsConnected(local: BrowserStorage.LocalStorage)
    reads local
  {
    TruthyText(local.GetItem(AccessKey))
  }

  /** `disconnectSpotify()` */
  method Disconnect(local: BrowserStorage.LocalStorage, session: BrowserStorage.LocalStorage)
    requires local != session
    modifies local, session
    ensures local.items == old(local.items) - {AccessKey, RefreshKey, ExpiresKey}
    ensures session.items == old(session.items) - {StateKey}
    ensures !IsConnected(local) && TokenFreshness(local.items, 0).Missing?
  {
    local.RemoveItem(AccessKey);
    local.RemoveItem(RefreshKey);
    local.RemoveItem(ExpiresKey);
    session.RemoveItem(StateKey);
  }

  /** `generateRandomString(length)`: draw i picks character i from the 62 letters and digits. */
  method GenerateRandomString(length: nat, draws: seq<int>) returns (s: string)
    requires |draws| == length && forall i :: 0 <= i < |draws| ==> 0 <= draws[i] < |Alphabet|
    ensures |s| == length
    ensures forall i :: 0 <= i < length ==> s[i] == Alphabet[draws[i]] && s[i] in Alphabet
  {
    s := "";
    var i := 0;
    while i < length
      invariant 0 <= i <= length && |s| == i
      invariant forall k :: 0 <= k < i ==> s[k] == Alphabet[draws[k]]
    {
      s := s + [Alphabet[draws[i]]];
      i := i + 1;
    }
  }
}
