// The earlier relational edge function, supabase/functions/server/index.ts:
// signup and login by creating sessions directly, a length-only OTP check,
// the profile update and the same swipe and message handlers as the deployed
// variant, behind the looser `Authorization` check.

module Server {
  import opened Js
  import opened Tables
  import Auth
  import MakeServer

  /** POST auth/signup. `created` and `session` are the auth admin's answers; `insertError` the database's. */
  method Signup(db: Database, email: Option<string>, name: JsValue, created: Result<string>,
                insertError: Option<string>, session: Option<string>)
    returns (reply: Reply)
    modifies db
    ensures db.profiles == old(db.profiles) && db.swipes == old(db.swipes) && db.matches == old(db.matches)
    ensures db.conversations == old(db.conversations) && db.messages == old(db.messages)
    ensures !Auth.IsCampusEmail(email) ==>
      reply == Reply(400, Failure("Invalid email. Must use @bennett.edu.in")) && db.users == old(db.users)
    ensures Auth.IsCampusEmail(email) && Single(old(db.users), (row: UserRow) => MakeServer.HasEmail(row, email.value)).Some? ==>
      reply == Reply(400, Failure("A user with this email address has already been registered")) && db.users == old(db.users)
    ensures Auth.IsCampusEmail(email) && Single(old(db.users), (row: UserRow) => MakeServer.HasEmail(row, email.value)).None? ==>
      match created
      case Err(message) => reply == Reply(400, Failure(message)) && db.users == old(db.users)
      case Ok(id) =>
        if insertError.Some? then reply == Reply(500, Failure("Failed to create user profile")) && db.users == old(db.users)
        else
          db.users == old(db.users) + [SignupRow(id, email.value, name)]
          && reply == (if session.None? then Reply(500, Failure("Failed to create session"))
                       else Reply(200, SignedUp(id, session.value)))
  {
    if !Auth.IsCampusEmail(email) {
      return Reply(400, Failure("Invalid email. Must use @bennett.edu.in"));
    }
    var existing := Single(db.users, (row: UserRow) => MakeServer.HasEmail(row, email.value));
    if existing.Some? {
      return Reply(400, Failure("A user with this email address has already been registered"));
    }
    if created.Err? {
      return Reply(400, Failure(created.message));
    }
    if insertError.Some? {
      return Reply(500, Failure("Failed to create user profile"));
    }
    db.users := db.users + [SignupRow(created.value, email.value, name)];
    if session.None? {
      return Reply(500, Failure("Failed to create session"));
    }
    return Reply(200, SignedUp(created.value, session.value));
  }

  /** The `users` row signup inserts; a name that is `undefined` is not sent. */
  function SignupRow(id: string, email: string, name: JsValue): (row: UserRow)
    ensures row.id == id && MakeServer.HasEmail(row, email)
    ensures Field(row.columns, "is_active") == Bool(true)
    ensures Field(row.columns, "name") == name
  {
    UserRow(id, MakeServer.SetDefined(map["email" := Text(email), "is_active" := Bool(true)], "name", name))
  }

  /** POST auth/verify-otp: any `otp` whose length is 6 is accepted. */
  function VerifyOtp(otp: JsValue): (reply: Reply)
  {
    if Truthy(otp) && LengthOf(otp) == Some(6) then Reply(200, OtpAccepted) else Reply(400, Failure("Invalid OTP"))
  }

  /** The check looks at the length only: every six-character string passes, digits or not, and so does a six-element array. */
  lemma VerifyOtpLengthOnly(otp: JsValue)
    ensures VerifyOtp(otp).status == 200 <==> (otp.Text? && |otp.s| == 6) || (otp.List? && |otp.items| == 6)
  {
  }

  /** POST auth/login. `session` is the auth admin's answer for the found user. */
  function Login(users: seq<UserRow>, email: Option<string>, session: Option<string>): (reply: Reply)
  {
    if !Auth.IsCampusEmail(email) then Reply(400, Failure("Invalid email. Must use @bennett.edu.in"))
    else
      var user := Single(users, (row: UserRow) => MakeServer.HasEmail(row, email.value));
      if user.None? then Reply(404, Failure("User not found. Please sign up first."))
      else if session.None? then Reply(500, Failure("Failed to create session"))
      else Reply(200, LoggedIn(user.value, session.value))
  }

  /** Login succeeds only for a campus address held by exactly one `users` row, and answers with that row. */
  lemma LoginOutcome(users: seq<UserRow>, email: Option<string>, session: Option<string>)
    ensures Login(users, email, session).status == 200 <==>
      Auth.IsCampusEmail(email) && session.Some?
      && CountWhere(users, (row: UserRow) => MakeServer.HasEmail(row, email.value)) == 1
    ensures Login(users, email, session).status == 200 ==>
      Login(users, email, session).body.user in users
      && MakeServer.HasEmail(Login(users, email, session).body.user, email.value)
  {
    if Auth.IsCampusEmail(email) {
      SingleMeaning(users, (row: UserRow) => MakeServer.HasEmail(row, email.value));
    }
  }

  const ProfileColumns: set<string> := {"bio", "avatar_url", "age", "gender", "location", "musical_genre", "favorite_artists"}

  /** The seven columns the update names; the ones the body lacks are `undefined` and are not sent. */
  function ProfileChanges(body: Body): (data: map<string, JsValue>)
    ensures forall k :: k in data <==> k in ProfileColumns && k in body
    ensures forall k :: k in data ==> data[k] == body[k]
  {
    map k | k in ProfileColumns && k in body :: body[k]
  }

  /** The `user_profiles` columns written: completed, picture and bio from the body. */
  function ProfileRowChanges(body: Body): (data: map<string, JsValue>)
  {
    MakeServer.SetDefined(MakeServer.SetDefined(map["profile_completed" := Bool(true)], "profile_picture_url",
                                                Field(body, "avatar_url")), "bio", Field(body, "bio"))
  }

  /**
   * POST profile. Unlike the deployed variant, a failed `user_profiles`
   * write is answered with 500; the `users` update has already happened.
   */
  method UpdateProfile(db: Database, header: Option<string>, getUser: string -> Option<string>, body: Body,
                       updateError: Option<string>, profileError: Option<string>)
    returns (reply: Reply)
    modifies db
    ensures db.swipes == old(db.swipes) && db.matches == old(db.matches)
    ensures db.conversations == old(db.conversations) && db.messages == old(db.messages)
    ensures Auth.VerifyUserLoose(header, getUser).None? ==>
      reply == Reply(401, Failure("Unauthorized")) && db.users == old(db.users) && db.profiles == old(db.profiles)
    ensures Auth.VerifyUserLoose(header, getUser).Some? && updateError.Some? ==>
      reply == Reply(500, Failure(updateError.value)) && db.users == old(db.users) && db.profiles == old(db.profiles)
    ensures Auth.VerifyUserLoose(header, getUser).Some? && updateError.None? ==>
      var id := Auth.VerifyUserLoose(header, getUser).value;
      var owns := (row: ProfileRow) => MakeServer.OwnsProfile(row, id);
      db.users == UpdateWhere(old(db.users), (row: UserRow) => MakeServer.HasId(row, id),
                              (row: UserRow) => row.(columns := row.columns + ProfileChanges(body)))
      && (profileError.Some? ==> db.profiles == old(db.profiles) && reply == Reply(500, Failure(profileError.value)))
      && (profileError.None? ==>
            db.profiles == (if Single(old(db.profiles), owns).Some?
                            then UpdateWhere(old(db.profiles), owns,
                                             (row: ProfileRow) => row.(columns := row.columns + ProfileRowChanges(body)))
                            else old(db.profiles) + [ProfileRow(id, ProfileRowChanges(body))])
            && reply == Reply(200, ProfileSaved(Single(db.users, (row: UserRow) => MakeServer.HasId(row, id)))))
  {
    var user := Auth.VerifyUserLoose(header, getUser);
    if user.None? {
      return Reply(401, Failure("Unauthorized"));
    }
    var id := user.value;
    if updateError.Some? {
      return Reply(500, Failure(updateError.value));
    }
    var changes := ProfileChanges(body);
    db.users := UpdateWhere(db.users, (row: UserRow) => MakeServer.HasId(row, id),
                            (row: UserRow) => row.(columns := row.columns + changes));
    var owns := (row: ProfileRow) => MakeServer.OwnsProfile(row, id);
    var existing := Single(db.profiles, owns);
    if profileError.Some? {
      return Reply(500, Failure(profileError.value));
    }
    var data := ProfileRowChanges(body);
    if existing.Some? {
      db.profiles := UpdateWhere(db.profiles, owns, (row: ProfileRow) => row.(columns := row.columns + data));
    } else {
      db.profiles := db.profiles + [ProfileRow(id, data)];
    }
    return Reply(200, ProfileSaved(Single(db.users, (row: UserRow) => MakeServer.HasId(row, id))));
  }

  /** POST matches/swipe behind the loose header check. */
  method Swipe(db: Database, header: Option<string>, getUser: string -> Option<string>,
               target: string, song: SongId, direction: JsValue, nullEq: bool,
               insertError: Option<string>, matchInsertError: Option<string>)
    returns (reply: Reply)
    modifies db
    ensures Auth.VerifyUserLoose(header, getUser).None? ==>
      reply == Reply(401, Failure("Unauthorized")) && unchanged(db)
    ensures Auth.VerifyUserLoose(header, getUser).Some? ==>
      db.users == old(db.users) && db.profiles == old(db.profiles)
      && db.conversations == old(db.conversations) && db.messages == old(db.messages)
    ensures Auth.VerifyUserLoose(header, getUser).Some? && direction != Text("like") && direction != Text("skip") ==>
      reply == Reply(400, Failure("Invalid direction")) && db.swipes == old(db.swipes) && db.matches == old(db.matches)
    ensures Auth.VerifyUserLoose(header, getUser).Some? && (direction == Text("like") || direction == Text("skip"))
            && insertError.Some? ==>
      reply == Reply(500, Failure(insertError.value)) && db.swipes == old(db.swipes) && db.matches == old(db.matches)
    ensures Auth.VerifyUserLoose(header, getUser).Some? && (direction == Text("like") || direction == Text("skip"))
            && insertError.None? ==>
      var caller := Auth.VerifyUserLoose(header, getUser).value;
      var matched := direction == Text("like") && FindReciprocal(db.swipes, caller, target, song, nullEq).Some?;
      var pair := OrderedPair(caller, target);
      db.swipes == old(db.swipes) + [SwipeRow(caller, target, song, direction)]
      && reply == Reply(200, Swiped(matched))
      && db.matches == old(db.matches) + (if matched && matchInsertError.None? then [MatchRow(pair.0, pair.1, song, 100)] else [])
  {
    var user := Auth.VerifyUserLoose(header, getUser);
    if user.None? {
      return Reply(401, Failure("Unauthorized"));
    }
    reply := db.RecordSwipe(user.value, target, song, direction, nullEq, insertError, matchInsertError);
  }

  /** POST messages/send behind the loose header check. */
  method SendMessage(db: Database, header: Option<string>, getUser: string -> Option<string>,
                     recipient: Option<string>, content: JsValue, now: string,
                     insertError: Option<string>, conversationWriteOk: bool)
    returns (reply: Reply)
    modifies db
    ensures Auth.VerifyUserLoose(header, getUser).None? ==>
      reply == Reply(401, Failure("Unauthorized")) && unchanged(db)
    ensures Auth.VerifyUserLoose(header, getUser).Some? ==>
      db.users == old(db.users) && db.profiles == old(db.profiles)
      && db.swipes == old(db.swipes) && db.matches == old(db.matches)
    ensures Auth.VerifyUserLoose(header, getUser).Some? && (!TruthyText(recipient) || !Truthy(content)) ==>
      reply == Reply(400, Failure("Missing required fields"))
      && db.messages == old(db.messages) && db.conversations == old(db.conversations)
    ensures Auth.VerifyUserLoose(header, getUser).Some? && TruthyText(recipient) && Truthy(content) && insertError.Some? ==>
      reply == Reply(500, Failure(insertError.value))
      && db.messages == old(db.messages) && db.conversations == old(db.conversations)
    ensures Auth.VerifyUserLoose(header, getUser).Some? && TruthyText(recipient) && Truthy(content) && insertError.None? ==>
      var caller := Auth.VerifyUserLoose(header, getUser).value;
      var pair := OrderedPair(caller, recipient.value);
      var existing := Single(old(db.conversations), (row: ConversationRow) => SamePair(row, pair.0, pair.1));
      reply == Reply(200, MessageSent)
      && db.messages == old(db.messages) + [MessageRow(caller, recipient.value, content)]
      && db.conversations ==
        if !conversationWriteOk then old(db.conversations)
        else if existing.Some? then
          UpdateWhere(old(db.conversations), (row: ConversationRow) => SamePair(row, pair.0, pair.1),
                      (row: ConversationRow) => Touch(row, now, content))
        else old(db.conversations) + [ConversationRow(pair.0, pair.1, now, content)]
  {
    var user := Auth.VerifyUserLoose(header, getUser);
    if user.None? {
      return Reply(401, Failure("Unauthorized"));
    }
    reply := db.SendMessage(user.value, recipient, content, now, insertError, conversationWriteOk);
  }
}
