// The deployed edge function, supabase/functions/make-server-2e8e40fd/index.ts:
// email-OTP authentication, the profile update and the swipe and message
// routes over the relational tables. The auth provider's answers (sending an
// OTP, checking one, resolving a token) and the database's write errors are
// parameters.

module MakeServer {
  import opened Js
  import JsText
  import opened Tables
  import Auth

  /** What signInWithOtp answers: nothing on success, or an error message. */
  type OtpAnswer = Option<string>

  predicate HasEmail(row: UserRow, email: string)
  {
    "email" in row.columns && row.columns["email"] == Text(email)
  }

  predicate HasId(row: UserRow, id: string)
  {
    row.id == id
  }

  /** The signup name check: present, a string, and not blank after trimming. */
  predicate ValidSignupName(name: JsValue)
  {
    Truthy(name) && name.Text? && JsText.Trim(name.s) != ""
  }

  /**
   * POST auth/entry. Reads only the `users` table; the OTP e-mail is the
   * provider's (`sendOtp`).
   */
  function AuthEntry(users: seq<UserRow>, action: JsValue, email: Option<string>, name: JsValue, sendOtp: OtpAnswer): (reply: Reply)
  {
    if !Auth.IsCampusEmail(email) then Reply(400, Failure("Invalid email. Must use @bennett.edu.in"))
    else if action == Text("login") then
      if sendOtp.Some? then Reply(400, Failure("Failed to send OTP email: " + sendOtp.value))
      else Reply(200, OtpSent)
    else if action == Text("signup") then
      if !ValidSignupName(name) then Reply(400, Failure("Name is required for signup"))
      else
        match MaybeSingle(users, (row: UserRow) => HasEmail(row, email.value))
        case ManyRows => Reply(500, Failure("Database error checking existing user"))
        case OneRow(_) => Reply(400, Failure("A user with this email address has already been registered"))
        case NoRow =>
          if sendOtp.Some? then
            Reply(400, Failure("Failed to send OTP email: " + sendOtp.value
                               + ". Ensure email is configured in Supabase Dashboard → Authentication → Providers → Email."))
          else Reply(200, OtpSent)
    else Reply(400, Failure("Invalid action"))
  }

  /** The signup lookup finds no row exactly when no `users` row has the address. */
  lemma UnregisteredEmail(users: seq<UserRow>, email: string)
    ensures MaybeSingle(users, (row: UserRow) => HasEmail(row, email)).NoRow? <==>
      forall i :: 0 <= i < |users| ==> !HasEmail(users[i], email)
  {
    MaybeSingleMeaning(users, (row: UserRow) => HasEmail(row, email));
  }

  /** An address outside the campus domain is refused before the action is looked at. */
  lemma AuthEntryOffCampus(users: seq<UserRow>, action: JsValue, email: Option<string>, name: JsValue, sendOtp: OtpAnswer)
    requires !Auth.IsCampusEmail(email)
    ensures AuthEntry(users, action, email, name, sendOtp) == Reply(400, Failure("Invalid email. Must use @bennett.edu.in"))
  {
  }

  /** A campus login succeeds exactly when the provider sends the code. */
  lemma AuthEntryLogin(users: seq<UserRow>, email: Option<string>, name: JsValue, sendOtp: OtpAnswer)
    requires Auth.IsCampusEmail(email)
    ensures AuthEntry(users, Text("login"), email, name, sendOtp).status == 200 <==> sendOtp.None?
  {
  }

  /** A campus signup succeeds exactly for a valid name, an address no user has, and a sent code. */
  lemma AuthEntrySignup(users: seq<UserRow>, email: Option<string>, name: JsValue, sendOtp: OtpAnswer)
    requires Auth.IsCampusEmail(email)
    ensures AuthEntry(users, Text("signup"), email, name, sendOtp).status == 200 <==>
      ValidSignupName(name) && sendOtp.None? && forall i :: 0 <= i < |users| ==> !HasEmail(users[i], email.value)
  {
    if ValidSignupName(name) {
      UnregisteredEmail(users, email.value);
      AuthEntryNamedSignup(users, email, name, sendOtp);
    } else {
      assert AuthEntry(users, Text("signup"), email, name, sendOtp).status == 400;
    }
  }

  lemma AuthEntryNamedSignup(users: seq<UserRow>, email: Option<string>, name: JsValue, sendOtp: OtpAnswer)
    requires Auth.IsCampusEmail(email) && ValidSignupName(name)
    ensures AuthEntry(users, Text("signup"), email, name, sendOtp).status == 200 <==>
      sendOtp.None? && MaybeSingle(users, (row: UserRow) => HasEmail(row, email.value)).NoRow?
  {
  }

  /** The entry point sends an OTP only to a campus address, and on signup only to a new, named user. */
  lemma AuthEntryOutcomes(users: seq<UserRow>, action: JsValue, email: Option<string>, name: JsValue, sendOtp: OtpAnswer)
    ensures AuthEntry(users, action, email, name, sendOtp).status == 200 <==>
      Auth.IsCampusEmail(email) && sendOtp.None?
      && (action == Text("login")
          || (action == Text("signup") && ValidSignupName(name)
              && forall i :: 0 <= i < |users| ==> !HasEmail(users[i], email.value)))
  {
    if !Auth.IsCampusEmail(email) {
      AuthEntryOffCampus(users, action, email, name, sendOtp);
    } else if action == Text("login") {
      AuthEntryLogin(users, email, name, sendOtp);
    } else if action == Text("signup") {
      AuthEntrySignup(users, email, name, sendOtp);
    } else {
      AuthEntryUnknownAction(users, action, email, name, sendOtp);
    }
  }

  /** Any action other than login and signup is refused. */
  lemma AuthEntryUnknownAction(users: seq<UserRow>, action: JsValue, email: Option<string>, name: JsValue, sendOtp: OtpAnswer)
    requires action != Text("login") && action != Text("signup")
    ensures AuthEntry(users, action, email, name, sendOtp).status == 400
  {
  }

  /** What a successful verifyOtp gives: the auth user and the session's access token. */
  datatype Session = Session(userId: string, email: string, metadataName: JsValue, accessToken: string)

  /** The `users` row created on a first verification. */
  function NewVerifiedUser(s: Session): (row: UserRow)
    ensures row.id == s.userId
    ensures Field(row.columns, "email_confirmed") == Bool(true) && Field(row.columns, "is_active") == Bool(true)
    ensures Truthy(Field(row.columns, "name"))
  {
    UserRow(s.userId, map["email" := Text(s.email), "name" := Or(s.metadataName, Text("User")),
                          "is_active" := Bool(true), "email_confirmed" := Bool(true)])
  }

  function Confirm(row: UserRow): (r: UserRow)
  {
    row.(columns := row.columns["email_confirmed" := Bool(true)])
  }

  /**
   * POST auth/verify-otp. `verified` is the provider's answer to the code;
   * `insertError` and `updateFails` are the database's answers.
   */
  method VerifyOtp(db: Database, email: JsValue, otp: JsValue, verified: Option<Session>,
                   insertError: Option<string>, updateFails: bool)
    returns (reply: Reply)
    modifies db
    ensures db.profiles == old(db.profiles) && db.swipes == old(db.swipes) && db.matches == old(db.matches)
    ensures db.conversations == old(db.conversations) && db.messages == old(db.messages)
    ensures !Truthy(email) || !Truthy(otp) ==> reply == Reply(400, Failure("Email and OTP required")) && db.users == old(db.users)
    ensures Truthy(email) && Truthy(otp) && verified.None? ==>
      reply == Reply(400, Failure("Invalid or expired OTP")) && db.users == old(db.users)
    ensures Truthy(email) && Truthy(otp) && verified.Some? ==>
      var s := verified.value;
      match MaybeSingle(old(db.users), (row: UserRow) => HasId(row, s.userId))
      case OneRow(existing) =>
        if updateFails then db.users == old(db.users) && reply == Reply(200, Verified(existing, s.accessToken))
        else db.users == UpdateWhere(old(db.users), (row: UserRow) => HasId(row, s.userId), Confirm)
             && reply == Reply(200, Verified(Confirm(existing), s.accessToken))
      case _ =>
        if insertError.Some? then db.users == old(db.users) && reply == Reply(500, Failure("Failed to create user profile"))
        else db.users == old(db.users) + [NewVerifiedUser(s)] && reply == Reply(200, Verified(NewVerifiedUser(s), s.accessToken))
  {
    if !Truthy(email) || !Truthy(otp) {
      return Reply(400, Failure("Email and OTP required"));
    }
    if verified.None? {
      return Reply(400, Failure("Invalid or expired OTP"));
    }
    var s := verified.value;
    var lookup := MaybeSingle(db.users, (row: UserRow) => HasId(row, s.userId));
    if !lookup.OneRow? {
      if insertError.Some? {
        return Reply(500, Failure("Failed to create user profile"));
      }
      db.users := db.users + [NewVerifiedUser(s)];
      return Reply(200, Verified(NewVerifiedUser(s), s.accessToken));
    }
    if updateFails {
      return Reply(200, Verified(lookup.row, s.accessToken));
    }
    db.users := UpdateWhere(db.users, (row: UserRow) => HasId(row, s.userId), Confirm);
    return Reply(200, Verified(Confirm(lookup.row), s.accessToken));
  }

  /** After a verification that succeeds, the caller's `users` row is there and confirmed. */
  lemma VerifiedUserConfirmed(users: seq<UserRow>, s: Session)
    requires MaybeSingle(users, (row: UserRow) => HasId(row, s.userId)).OneRow?
    ensures var after := UpdateWhere(users, (row: UserRow) => HasId(row, s.userId), Confirm);
            (forall i :: 0 <= i < |after| && after[i].id == s.userId ==> after[i].columns["email_confirmed"] == Bool(true))
            && (exists i :: 0 <= i < |after| && after[i].id == s.userId)
  {
    var p := (row: UserRow) => HasId(row, s.userId);
    MaybeSingleMeaning(users, p);
    var r := MaybeSingle(users, p).row;
    var k :| 0 <= k < |users| && users[k] == r;
    var after := UpdateWhere(users, p, Confirm);
    assert after[k].id == s.userId;
  }

  /** `if (x !== undefined) data.key = x`: a JSON body never holds `undefined`, so presence decides. */
  function CopyIfPresent(data: map<string, JsValue>, body: Body, from: string, to: string): (r: map<string, JsValue>)
  {
    if from in body then data[to := body[from]] else data
  }

  /** The columns the profile update writes to `users`, in the order the handler assigns them. */
  function ProfileChanges(body: Body): (data: map<string, JsValue>)
  {
    var d0 := CopyIfPresent(map[], body, "bio", "bio");
    var d1 := CopyIfPresent(d0, body, "avatar_url", "avatar_url");
    var d2 := CopyIfPresent(d1, body, "photo", "avatar_url");
    var d3 := CopyIfPresent(d2, body, "age", "age");
    var d4 := CopyIfPresent(d3, body, "gender", "gender");
    var d5 := CopyIfPresent(d4, body, "location", "location");
    var d6 := CopyIfPresent(d5, body, "musical_genre", "musical_genre");
    var d7 := CopyIfPresent(d6, body, "favorite_artists", "favorite_artists");
    CopyIfPresent(d7, body, "name", "name")
  }

  const CopiedFields: set<string> := {"bio", "age", "gender", "location", "musical_genre", "favorite_artists", "name"}

  /** What the handler means to write to column `k`, if anything. */
  function IntendedChange(body: Body, k: string): (v: Option<JsValue>)
  {
    if k == "avatar_url" then
      (if "photo" in body then Some(body["photo"]) else if "avatar_url" in body then Some(body["avatar_url"]) else None)
    else if k in CopiedFields && k in body then Some(body[k])
    else None
  }

  /** Column by column: only the fields the body provides are written, and `photo` wins over `avatar_url`. */
  lemma ProfileChangesAt(body: Body, k: string)
    ensures k in ProfileChanges(body) <==> IntendedChange(body, k).Some?
    ensures k in ProfileChanges(body) ==> ProfileChanges(body)[k] == IntendedChange(body, k).value
  {
  }

  /** Writes `key := v` unless `v` is `undefined`, which JSON serialisation drops. */
  function SetDefined(data: map<string, JsValue>, key: string, v: JsValue): (r: map<string, JsValue>)
  {
    if v == Undefined then data else data[key := v]
  }

  predicate OwnsProfile(row: ProfileRow, id: string)
  {
    row.userId == id
  }

  /** The `user_profiles` columns written for an existing row. */
  function ProfileRowUpdate(body: Body, existing: ProfileRow): (data: map<string, JsValue>)
  {
    var bio := Or(Field(body, "bio"), Field(existing.columns, "bio"));
    SetDefined(SetDefined(map["profile_completed" := Bool(true)], "profile_picture_url",
                          Or(Field(body, "avatar_url"), Field(body, "photo"))), "bio", bio)
  }

  /** The `user_profiles` row inserted when the caller has none. */
  function NewProfileRow(body: Body, id: string): (row: ProfileRow)
    ensures row.userId == id && Field(row.columns, "profile_completed") == Bool(true)
    ensures "bio" in row.columns
  {
    ProfileRow(id, SetDefined(map["profile_completed" := Bool(true), "bio" := Or(Field(body, "bio"), Text(""))],
                              "profile_picture_url", Or(Field(body, "avatar_url"), Field(body, "photo"))))
  }

  /**
   * POST profile. `updateError` is the answer to the `users` update;
   * `profileWriteOk` says whether the `user_profiles` write took effect (its
   * error is only logged).
   */
  method UpdateProfile(db: Database, header: Option<string>, getUser: string -> Option<string>, body: Body,
                       updateError: Option<string>, profileWriteOk: bool)
    returns (reply: Reply)
    modifies db
    ensures db.swipes == old(db.swipes) && db.matches == old(db.matches)
    ensures db.conversations == old(db.conversations) && db.messages == old(db.messages)
    ensures Auth.VerifyUserStrict(header, getUser).None? ==>
      reply == Reply(401, Failure("Unauthorized")) && db.users == old(db.users) && db.profiles == old(db.profiles)
    ensures Auth.VerifyUserStrict(header, getUser).Some? && updateError.Some? ==>
      reply == Reply(500, Failure(updateError.value)) && db.users == old(db.users) && db.profiles == old(db.profiles)
    ensures Auth.VerifyUserStrict(header, getUser).Some? && updateError.None? ==>
      var id := Auth.VerifyUserStrict(header, getUser).value;
      var owns := (row: ProfileRow) => OwnsProfile(row, id);
      db.users == UpdateWhere(old(db.users), (row: UserRow) => HasId(row, id),
                              (row: UserRow) => row.(columns := row.columns + ProfileChanges(body)))
      && db.profiles == (if !profileWriteOk then old(db.profiles)
                         else match MaybeSingle(old(db.profiles), owns)
                           case OneRow(existing) =>
                             UpdateWhere(old(db.profiles), owns,
                                         (row: ProfileRow) => row.(columns := row.columns + ProfileRowUpdate(body, existing)))
                           case _ => old(db.profiles) + [NewProfileRow(body, id)])
      && reply == Reply(200, ProfileSaved(Single(db.users, (row: UserRow) => HasId(row, id))))
  {
    var user := Auth.VerifyUserStrict(header, getUser);
    if user.None? {
      return Reply(401, Failure("Unauthorized"));
    }
    var id := user.value;
    var changes := ProfileChanges(body);
    if updateError.Some? {
      return Reply(500, Failure(updateError.value));
    }
    db.users := UpdateWhere(db.users, (row: UserRow) => HasId(row, id),
                            (row: UserRow) => row.(columns := row.columns + changes));
    var owns := (row: ProfileRow) => OwnsProfile(row, id);
    var existing := MaybeSingle(db.profiles, owns);
    if profileWriteOk {
      if existing.OneRow? {
        var data := ProfileRowUpdate(body, existing.row);
        db.profiles := UpdateWhere(db.profiles, owns, (row: ProfileRow) => row.(columns := row.columns + data));
      } else {
        db.profiles := db.profiles + [NewProfileRow(body, id)];
      }
    }
    return Reply(200, ProfileSaved(Single(db.users, (row: UserRow) => HasId(row, id))));
  }

  /** POST matches/swipe: 401 without a valid bearer token, otherwise the shared swipe handler. */
  method Swipe(db: Database, header: Option<string>, getUser: string -> Option<string>,
               target: string, song: SongId, direction: JsValue, nullEq: bool,
               insertError: Option<string>, matchInsertError: Option<string>)
    returns (reply: Reply)
    modifies db
    ensures Auth.VerifyUserStrict(header, getUser).None? ==>
      reply == Reply(401, Failure("Unauthorized")) && unchanged(db)
    ensures Auth.VerifyUserStrict(header, getUser).Some? ==>
      db.users == old(db.users) && db.profiles == old(db.profiles)
      && db.conversations == old(db.conversations) && db.messages == old(db.messages)
    ensures Auth.VerifyUserStrict(header, getUser).Some? && direction != Text("like") && direction != Text("skip") ==>
      reply == Reply(400, Failure("Invalid direction")) && db.swipes == old(db.swipes) && db.matches == old(db.matches)
    ensures Auth.VerifyUserStrict(header, getUser).Some? && (direction == Text("like") || direction == Text("skip"))
            && insertError.Some? ==>
      reply == Reply(500, Failure(insertError.value)) && db.swipes == old(db.swipes) && db.matches == old(db.matches)
    ensures Auth.VerifyUserStrict(header, getUser).Some? && (direction == Text("like") || direction == Text("skip"))
            && insertError.None? ==>
      var caller := Auth.VerifyUserStrict(header, getUser).value;
      var matched := direction == Text("like") && FindReciprocal(db.swipes, caller, target, song, nullEq).Some?;
      var pair := OrderedPair(caller, target);
      db.swipes == old(db.swipes) + [SwipeRow(caller, target, song, direction)]
      && reply == Reply(200, Swiped(matched))
      && db.matches == old(db.matches) + (if matched && matchInsertError.None? then [MatchRow(pair.0, pair.1, song, 100)] else [])
  {
    var user := Auth.VerifyUserStrict(header, getUser);
    if user.None? {
      return Reply(401, Failure("Unauthorized"));
    }
    reply := db.RecordSwipe(user.value, target, song, direction, nullEq, insertError, matchInsertError);
  }

  /** POST messages/send: 401 without a valid bearer token, otherwise the shared send handler. */
  method SendMessage(db: Database, header: Option<string>, getUser: string -> Option<string>,
                     recipient: Option<string>, content: JsValue, now: string,
                     insertError: Option<string>, conversationWriteOk: bool)
    returns (reply: Reply)
    modifies db
    ensures Auth.VerifyUserStrict(header, getUser).None? ==>
      reply == Reply(401, Failure("Unauthorized")) && unchanged(db)
    ensures Auth.VerifyUserStrict(header, getUser).Some? ==>
      db.users == old(db.users) && db.profiles == old(db.profiles)
      && db.swipes == old(db.swipes) && db.matches == old(db.matches)
    ensures Auth.VerifyUserStrict(header, getUser).Some? && (!TruthyText(recipient) || !Truthy(content)) ==>
      reply == Reply(400, Failure("Missing required fields"))
      && db.messages == old(db.messages) && db.conversations == old(db.conversations)
    ensures Auth.VerifyUserStrict(header, getUser).Some? && TruthyText(recipient) && Truthy(content) && insertError.Some? ==>
      reply == Reply(500, Failure(insertError.value))
      && db.messages == old(db.messages) && db.conversations == old(db.conversations)
    ensures Auth.VerifyUserStrict(header, getUser).Some? && TruthyText(recipient) && Truthy(content) && insertError.None? ==>
      var caller := Auth.VerifyUserStrict(header, getUser).value;
      var pair := OrderedPair(caller, recipient.value);
      var existing := Single(old(db.conversations), (row: ConversationRow) => SamePair(row, pair.0, pair.1));
      reply == Reply(200, MessageSent)
      && db.messages == old(db.messages) + [MessageRow(caller, recipient.value, content)]
      && db.conversations ==
        if !conversationWriteOk then old(db.conversations)
        else if existing.Some? then
          UpdateWhere(old(db.conversations), (row: ConversationRow) => SamePair(row, pair.0, pair.1),
                      (row: ConversationRow) => Touch(row, now, content))
        else old(db.conversations) + [ConversationRow(pair.0, pair.1, now, content)]
  {
    var user := Auth.VerifyUserStrict(header, getUser);
    if user.None? {
      return Reply(401, Failure("Unauthorized"));
    }
    reply := db.SendMessage(user.value, recipient, content, now, insertError, conversationWriteOk);
  }
}
