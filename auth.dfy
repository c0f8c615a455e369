// Reading the caller from the `Authorization` header. The first edge-function
// variant (supabase/functions/make-server-2e8e40fd/index.ts) insists on
// exactly `Bearer <token>`; the other two (supabase/functions/server/index.ts
// and supabase/functions/server/index_old.ts) take the second space-separated
// word whatever the first one is. Both then ask the auth provider, given here
// as `getUser`, which user the token belongs to (`None` for an error, an
// unknown token or an exception).

module Auth {
  import opened Js
  import JsText

  /** `verifyUser` of the make-server variant. */
  function VerifyUserStrict(header: Option<string>, getUser: string -> Option<string>): (user: Option<string>)
  {
    if header.None? || header.value == "" then None
    else
      var parts := JsText.Split(header.value, ' ');
      if |parts| != 2 || parts[0] != "Bearer" then None
      else if parts[1] == "" then None
      else getUser(parts[1])
  }

  /** `verifyUser` of the two `server` variants: `authHeader.split(' ')[1]`. */
  function VerifyUserLoose(header: Option<string>, getUser: string -> Option<string>): (user: Option<string>)
  {
    if header.None? || header.value == "" then None
    else
      var parts := JsText.Split(header.value, ' ');
      if |parts| < 2 || parts[1] == "" then None
      else getUser(parts[1])
  }

  /** A bearer header built from a non-empty token without spaces is accepted for that token. */
  lemma StrictAcceptsBearer(token: string, getUser: string -> Option<string>)
    requires token != "" && ' ' !in token
    ensures VerifyUserStrict(Some("Bearer " + token), getUser) == getUser(token)
  {
    var parts := ["Bearer", token];
    assert JsText.Free(parts, ' ');
    assert JsText.Join(parts, ' ') == "Bearer " + token;
    JsText.SplitJoin(parts, ' ');
  }

  /** The strict check accepts nothing but `Bearer ` followed by one non-empty word. */
  lemma StrictOnlyBearer(header: Option<string>, getUser: string -> Option<string>)
    requires VerifyUserStrict(header, getUser).Some?
    ensures header.Some? && |header.value| > 7 && header.value[..7] == "Bearer "
    ensures ' ' !in header.value[7..]
    ensures VerifyUserStrict(header, getUser) == getUser(header.value[7..])
  {
    var h := header.value;
    var parts := JsText.Split(h, ' ');
    JsText.JoinSplit(h, ' ');
    assert JsText.Join(parts, ' ') == parts[0] + [' '] + parts[1];
    assert h == "Bearer" + [' '] + parts[1];
    assert h[7..] == parts[1];
  }

  /** Every header the strict check accepts, the loose one accepts for the same user. */
  lemma LooseExtendsStrict(header: Option<string>, getUser: string -> Option<string>)
    requires VerifyUserStrict(header, getUser).Some?
    ensures VerifyUserLoose(header, getUser) == VerifyUserStrict(header, getUser)
  {
  }

  /** The loose check ignores the scheme word: any word before the token will do. */
  lemma LooseIgnoresScheme(scheme: string, token: string, getUser: string -> Option<string>)
    requires ' ' !in scheme && token != "" && ' ' !in token
    ensures VerifyUserLoose(Some(scheme + " " + token), getUser) == getUser(token)
  {
    var parts := [scheme, token];
    assert JsText.Free(parts, ' ');
    assert JsText.Join(parts, ' ') == scheme + " " + token;
    JsText.SplitJoin(parts, ' ');
  }

  /** `!email || !email.includes('@bennett.edu.in')` rejects. */
  predicate IsCampusEmail(email: Option<string>)
  {
    email.Some? && email.value != "" && JsText.Contains(email.value, "@bennett.edu.in")
  }

  /** Only addresses containing the campus domain pass, wherever it occurs in them. */
  lemma CampusEmailMeaning(email: string)
    ensures IsCampusEmail(Some(email)) <==> exists i :: JsText.OccursAt(email, "@bennett.edu.in", i)
  {
    JsText.ContainsAt(email, "@bennett.edu.in");
  }
}
