// The key-value edge function, supabase/functions/server/index_old.ts. Every
// record lives under a string key in one store:
//   user:<id>                 the profile
//   profiles:all              every signed-up id, in signup order
//   swipe:<from>:<to>         the direction of a swipe
//   matches:<id>              ids matched with <id>
//   conversation:<a>:<b>      a conversation, keyed by the sorted pair
//   messages:<a>:<b>          its messages, oldest first
// The auth admin, the token check, the clock and `crypto.randomUUID` are
// parameters.

module KvServer {
  import opened Js
  import JsText
  import Auth
  import Ranking

  datatype Stats = Stats(rank: JsValue, rightSwipes: JsValue, category: JsValue)

  /** A stored profile; a field the object lacks is `Undefined`. */
  datatype Profile = Profile(id: string, email: JsValue, name: JsValue, photo: JsValue, songs: JsValue,
                             stats: Stats, createdAt: JsValue, updatedAt: JsValue)

  datatype Message = Message(id: string, conversationId: string, senderId: string, text: JsValue, timestamp: string)

  datatype Conversation = Conversation(id: string, participants: seq<string>, createdAt: string, lastMessage: Option<Message>)

  datatype Value =
    | ProfileValue(profile: Profile)
    | IdsValue(ids: seq<string>)
    | SwipeValue(direction: JsValue)
    | ConversationValue(conversation: Conversation)
    | MessagesValue(messages: seq<Message>)

  type Store = map<string, Value>

  /** A conversation as the conversations route lists it. */
  datatype Summary = Summary(id: string, otherUser: Option<Profile>, lastMessage: Option<Message>,
                             messageCount: nat, isLocked: bool)

  datatype Reply = Reply(status: int, body: Payload)

  datatype Payload =
    | Failure(error: string)
    | SignedUp(userId: string, session: string)
    | Saved(profile: Profile)
    | Potential(profiles: seq<Profile>)
    | SwipeDone(isMatch: bool)
    | Conversations(conversations: seq<Summary>)
    | Sent(message: Message)
    | Board(leaderboard: seq<Profile>)

  function UserKey(id: string): string { "user:" + id }
  function SwipeKey(from: string, to: string): string { "swipe:" + from + ":" + to }
  function MatchesKey(id: string): string { "matches:" + id }
  function ConversationKey(cid: string): string { "conversation:" + cid }
  function MessagesKey(cid: string): string { "messages:" + cid }
  const AllProfilesKey := "profiles:all"

  /** `[a, b].sort().join(':')` */
  function ConversationId(a: string, b: string): (cid: string)
  {
    var pair := JsText.SortPair(a, b);
    pair.0 + ":" + pair.1
  }

  /** Both members of a pair compute the same conversation key. */
  lemma ConversationIdSymmetric(a: string, b: string)
    ensures ConversationId(a, b) == ConversationId(b, a)
  {
    JsText.SortPairCanonical(a, b);
  }

  /** Keys of different kinds never collide, so writing one kind of record leaves the others alone. */
  lemma KeysDistinct(a: string, b: string, c: string, d: string)
    ensures UserKey(a) != SwipeKey(b, c) && UserKey(a) != MatchesKey(b) && UserKey(a) != AllProfilesKey
    ensures UserKey(a) != ConversationKey(b) && UserKey(a) != MessagesKey(b)
    ensures SwipeKey(a, b) != MatchesKey(c) && SwipeKey(a, b) != ConversationKey(c) && SwipeKey(a, b) != MessagesKey(c)
    ensures SwipeKey(a, b) != AllProfilesKey
    ensures MatchesKey(a) != ConversationKey(b) && MatchesKey(a) != MessagesKey(b) && MatchesKey(a) != AllProfilesKey
    ensures ConversationKey(a) != MessagesKey(b) && ConversationKey(a) != AllProfilesKey
    ensures MessagesKey(a) != AllProfilesKey
  {
    assert UserKey(a)[0] == 'u' && SwipeKey(a, b)[0] == 's' && MatchesKey(a)[0] == 'm';
    assert ConversationKey(a)[0] == 'c' && MessagesKey(a)[0] == 'm' && AllProfilesKey[0] == 'p';
    assert SwipeKey(b, c)[0] == 's' && MatchesKey(b)[0] == 'm' && MatchesKey(c)[0] == 'm';
    assert ConversationKey(b)[0] == 'c' && ConversationKey(c)[0] == 'c';
    assert MessagesKey(b)[0] == 'm' && MessagesKey(c)[0] == 'm';
    assert MatchesKey(a)[1] == 'a' && MessagesKey(b)[1] == 'e';
  }

  function GetProfile(data: Store, key: string): (p: Option<Profile>)
  {
    if key in data && data[key].ProfileValue? then Some(data[key].profile) else None
  }

  /** `await kv.get(key) || []` for a list of ids. */
  function GetIds(data: Store, key: string): (ids: seq<string>)
  {
    if key in data && data[key].IdsValue? then data[key].ids else []
  }

  /** `await kv.get(key) || []` for a list of messages. */
  function GetMessages(data: Store, key: string): (msgs: seq<Message>)
  {
    if key in data && data[key].MessagesValue? then data[key].messages else []
  }

  function GetConversation(data: Store, key: string): (c: Option<Conversation>)
  {
    if key in data && data[key].ConversationValue? then Some(data[key].conversation) else None
  }

  /** The stored direction of a swipe, `undefined` when there is none. */
  function SwipeDirection(data: Store, key: string): (d: JsValue)
  {
    if key in data && data[key].SwipeValue? then data[key].direction else Undefined
  }

  /** The profile signup stores. */
  function NewProfile(id: string, email: string, name: JsValue, now: string): (p: Profile)
  {
    Profile(id, Text(email), name, Text(""), List([]), Stats(Num(0), Num(0), Text("")), Text(now), Undefined)
  }

  /** The empty object `{}` that stands in for a missing profile. */
  function EmptyProfile(id: string): (p: Profile)
  {
    Profile(id, Undefined, Undefined, Undefined, Undefined, Stats(Undefined, Undefined, Undefined), Undefined, Undefined)
  }

  /** `{...existing, id, name: name || existing.name, ..., updatedAt}` */
  function MergeProfile(existing: Profile, id: string, body: Body, now: string): (p: Profile)
  {
    existing.(id := id,
              name := Or(Field(body, "name"), existing.name),
              photo := Or(Field(body, "photo"), existing.photo),
              songs := Or(Field(body, "songs"), existing.songs),
              stats := existing.stats.(category := Or(Field(body, "category"), existing.stats.category)),
              updatedAt := Text(now))
  }

  /** A profile update keeps what the body leaves empty and never touches the counters or the creation time. */
  lemma MergeProfileKeeps(existing: Profile, id: string, body: Body, now: string)
    ensures var p := MergeProfile(existing, id, body, now);
      p.id == id && p.email == existing.email && p.createdAt == existing.createdAt
      && p.stats.rank == existing.stats.rank && p.stats.rightSwipes == existing.stats.rightSwipes
      && (Truthy(Field(body, "name")) ==> p.name == body["name"])
      && (!Truthy(Field(body, "name")) ==> p.name == existing.name)
      && (Truthy(Field(body, "songs")) ==> p.songs == body["songs"])
      && (!Truthy(Field(body, "songs")) ==> p.songs == existing.songs)
      && (Truthy(Field(body, "photo")) ==> p.photo == body["photo"])
      && (!Truthy(Field(body, "photo")) ==> p.photo == existing.photo)
      && (Truthy(Field(body, "category")) ==> p.stats.category == body["category"])
      && (!Truthy(Field(body, "category")) ==> p.stats.category == existing.stats.category)
      && p.updatedAt == Text(now)
  {
  }

  /** `(x || 0) + 1` on a stored count. */
  function Increment(v: JsValue): (r: JsValue)
    ensures v.Num? ==> r == Num(v.n + 1)
    ensures !Truthy(v) ==> r == Num(1)
  {
    match v
    case Num(n) => Num(n + 1)
    case Text(s) => if s == "" then Num(1) else Text(s + "1")
    case Bool(b) => Num(if b then 2 else 1)
    case _ => Num(1)
  }

  /** A profile the swipe pool offers: it has a non-empty song list. */
  predicate HasSongs(p: Profile)
  {
    Truthy(p.songs) && LengthOf(p.songs).Some? && LengthOf(p.songs).value > 0
  }

  /** Whether `pid` is offered to `caller`: someone else, not swiped yet, with songs. */
  predicate Offered(data: Store, caller: string, pid: string)
  {
    pid != caller && !Truthy(SwipeDirection(data, SwipeKey(caller, pid)))
    && GetProfile(data, UserKey(pid)).Some? && HasSongs(GetProfile(data, UserKey(pid)).value)
  }

  /** The profiles offered from `ids`, in order. */
  function PotentialFrom(data: Store, caller: string, ids: seq<string>): (ps: seq<Profile>)
    decreases |ids|
  {
    if |ids| == 0 then []
    else
      var last := ids[|ids| - 1];
      PotentialFrom(data, caller, ids[..|ids| - 1])
        + (if Offered(data, caller, last) then [GetProfile(data, UserKey(last)).value] else [])
  }

  /** Every offered profile is someone else's, unswiped and has songs; every such id is offered. */
  lemma {:induction false} PotentialMeaning(data: Store, caller: string, ids: seq<string>)
    ensures forall p :: p in PotentialFrom(data, caller, ids) ==>
      exists pid :: pid in ids && Offered(data, caller, pid) && p == GetProfile(data, UserKey(pid)).value
    ensures forall pid :: pid in ids && Offered(data, caller, pid) ==>
      GetProfile(data, UserKey(pid)).value in PotentialFrom(data, caller, ids)
    decreases |ids|
  {
    if |ids| > 0 {
      var front := ids[..|ids| - 1];
      PotentialMeaning(data, caller, front);
      assert ids == front + [ids[|ids| - 1]];
      forall pid | pid in ids && Offered(data, caller, pid)
        ensures GetProfile(data, UserKey(pid)).value in PotentialFrom(data, caller, ids)
      {
        if pid != ids[|ids| - 1] { assert pid in front; }
      }
    }
  }

  /** A profile the leaderboard lists: it has songs and is in the chosen category. */
  predicate Ranked(p: Profile, category: string)
  {
    HasSongs(p) && (category == "All" || p.stats.category == Text(category))
  }

  /** The listed profiles of `ids`, in order, before sorting. */
  function RankedFrom(data: Store, category: string, ids: seq<string>): (ps: seq<Profile>)
    ensures forall i :: 0 <= i < |ps| ==> Ranked(ps[i], category)
    decreases |ids|
  {
    if |ids| == 0 then []
    else
      var last := ids[|ids| - 1];
      var p := GetProfile(data, UserKey(last));
      RankedFrom(data, category, ids[..|ids| - 1]) + (if p.Some? && Ranked(p.value, category) then [p.value] else [])
  }

  function RightSwipes(p: Profile): int
  {
    CountOf(p.stats.rightSwipes)
  }

  /** Each profile carries its position in the sorted list as `stats.rank`, counting from 1. */
  function WithRanks(ps: seq<Profile>): (r: seq<Profile>)
    ensures |r| == |ps|
    ensures forall i :: 0 <= i < |ps| ==> r[i] == ps[i].(stats := ps[i].stats.(rank := Num(i + 1)))
  {
    seq(|ps|, i requires 0 <= i < |ps| => ps[i].(stats := ps[i].stats.(rank := Num(i + 1))))
  }

  /** The leaderboard: listed profiles, most right swipes first, ranked 1, 2, 3, ... */
  function LeaderboardOf(data: Store, category: string): (r: seq<Profile>)
  {
    WithRanks(Ranking.SortDesc(RankedFrom(data, category, GetIds(data, AllProfilesKey)), RightSwipes))
  }

  /** The leaderboard holds exactly the listed profiles, in non-increasing right swipes, with ranks 1..n. */
  lemma LeaderboardMeaning(data: Store, category: string)
    ensures var r := LeaderboardOf(data, category);
      var listed := RankedFrom(data, category, GetIds(data, AllProfilesKey));
      |r| == |listed|
      && (forall i :: 0 <= i < |r| ==> r[i].stats.rank == Num(i + 1) && Ranked(r[i], category))
      && (forall i, j :: 0 <= i < j < |r| ==> RightSwipes(r[i]) >= RightSwipes(r[j]))
      && multiset(Unranked(r)) == multiset(Unranked(listed))
  {
    var listed := RankedFrom(data, category, GetIds(data, AllProfilesKey));
    var sorted := Ranking.SortDesc(listed, RightSwipes);
    Ranking.SortDescCorrect(listed, RightSwipes);
    var r := WithRanks(sorted);
    forall i | 0 <= i < |r| ensures Ranked(r[i], category) {
      assert sorted[i] in multiset(listed);
      var k :| 0 <= k < |listed| && listed[k] == sorted[i];
    }
    UnrankedWithRanks(sorted);
    UnrankedMultiset(sorted, listed);
  }

  /** A profile with its rank cleared, to compare lists before and after ranking. */
  function Unranked(ps: seq<Profile>): (r: seq<Profile>)
    ensures |r| == |ps|
  {
    seq(|ps|, i requires 0 <= i < |ps| => ps[i].(stats := ps[i].stats.(rank := Undefined)))
  }

  lemma UnrankedWithRanks(ps: seq<Profile>)
    ensures Unranked(WithRanks(ps)) == Unranked(ps)
  {
  }

  lemma UnrankedAppend(p: seq<Profile>, q: seq<Profile>)
    ensures Unranked(p + q) == Unranked(p) + Unranked(q)
  {
  }

  lemma RemoveAt<T>(b: seq<T>, k: nat)
    requires k < |b|
    ensures multiset(b[..k] + b[k + 1..]) == multiset(b) - multiset{b[k]}
  {
    assert b == b[..k] + [b[k]] + b[k + 1..];
  }

  lemma UnrankedRemoveAt(b: seq<Profile>, k: nat)
    requires k < |b|
    ensures multiset(Unranked(b)) == multiset(Unranked(b[..k] + b[k + 1..])) + multiset(Unranked([b[k]]))
  {
    assert b == b[..k] + ([b[k]] + b[k + 1..]);
    UnrankedAppend(b[..k], [b[k]] + b[k + 1..]);
    UnrankedAppend([b[k]], b[k + 1..]);
    UnrankedAppend(b[..k], b[k + 1..]);
  }

  lemma {:induction false} UnrankedMultiset(a: seq<Profile>, b: seq<Profile>)
    requires multiset(a) == multiset(b)
    ensures multiset(Unranked(a)) == multiset(Unranked(b))
    decreases |a|
  {
    if |a| > 0 {
      var n := |a| - 1;
      var x := a[n];
      assert x in multiset(b);
      var k :| 0 <= k < |b| && b[k] == x;
      RemoveAt(a, n);
      RemoveAt(b, k);
      assert a[..n] + a[n + 1..] == a[..n];
      UnrankedMultiset(a[..n], b[..k] + b[k + 1..]);
      UnrankedRemoveAt(a, n);
      UnrankedRemoveAt(b, k);
    }
  }

  /** The rank writes of the leaderboard, one `kv.set` per listed profile, in order. */
  function WriteRanks(data: Store, ranked: seq<Profile>): (d: Store)
    decreases |ranked|
  {
    if |ranked| == 0 then data
    else
      var last := ranked[|ranked| - 1];
      WriteRanks(data, ranked[..|ranked| - 1])[UserKey(last.id) := ProfileValue(last)]
  }

  lemma WriteRanksStep(data: Store, ranked: seq<Profile>, j: nat)
    requires j < |ranked|
    ensures WriteRanks(data, ranked[..j + 1]) == WriteRanks(data, ranked[..j])[UserKey(ranked[j].id) := ProfileValue(ranked[j])]
  {
    assert ranked[..j + 1][..j] == ranked[..j];
  }

  /** The first write of a swipe: `swipe:<caller>:<target>` holds the direction. */
  function RecordDirection(data: Store, caller: string, target: string, direction: JsValue): (d: Store)
  {
    data[SwipeKey(caller, target) := SwipeValue(direction)]
  }

  /** A right swipe adds one to the target's `stats.rightSwipes`, when the target has a profile. */
  function CountRightSwipe(data: Store, target: string): (d: Store)
  {
    match GetProfile(data, UserKey(target))
    case Some(p) => data[UserKey(target) := ProfileValue(p.(stats := p.stats.(rightSwipes := Increment(p.stats.rightSwipes))))]
    case None => data
  }

  /** A match appends each id to the other's match list and (re)creates the conversation. */
  function RecordMatch(data: Store, caller: string, target: string, now: string): (d: Store)
  {
    var cid := ConversationId(caller, target);
    data[MatchesKey(caller) := IdsValue(GetIds(data, MatchesKey(caller)) + [target])]
        [MatchesKey(target) := IdsValue(GetIds(data, MatchesKey(target)) + [caller])]
        [ConversationKey(cid) := ConversationValue(Conversation(cid, [caller, target], now, None))]
  }

  /** The summary of the conversation with `matchId`. */
  function SummaryOf(data: Store, caller: string, matchId: string): (s: Summary)
    ensures s.isLocked <==> s.messageCount == 0
    ensures s.lastMessage.None? <==> s.isLocked
  {
    var cid := ConversationId(caller, matchId);
    var msgs := GetMessages(data, MessagesKey(cid));
    Summary(cid, GetProfile(data, UserKey(matchId)),
            if |msgs| > 0 then Some(msgs[|msgs| - 1]) else None, |msgs|, |msgs| == 0)
  }

  /** A conversation is unlocked exactly when a message has been sent in it, and then shows the latest one. */
  lemma SummaryAfterSend(data: Store, caller: string, matchId: string, m: Message)
    ensures var cid := ConversationId(caller, matchId);
      var after := data[MessagesKey(cid) := MessagesValue(GetMessages(data, MessagesKey(cid)) + [m])];
      !SummaryOf(after, caller, matchId).isLocked
      && SummaryOf(after, caller, matchId).lastMessage == Some(m)
      && SummaryOf(after, caller, matchId).messageCount == SummaryOf(data, caller, matchId).messageCount + 1
      && SummaryOf(after, matchId, caller).lastMessage == Some(m)
  {
    ConversationIdSymmetric(caller, matchId);
  }

  function SummariesFrom(data: Store, caller: string, ids: seq<string>): (r: seq<Summary>)
    ensures |r| == |ids|
    ensures forall i :: 0 <= i < |ids| ==> r[i] == SummaryOf(data, caller, ids[i])
  {
    seq(|ids|, i requires 0 <= i < |ids| => SummaryOf(data, caller, ids[i]))
  }

  class KvStore {
    var data: Store

    constructor ()
      ensures data == map[]
    {
      data := map[];
    }

    /** POST auth/signup. `created` and `session` are the auth admin's answers. */
    method Signup(email: Option<string>, name: JsValue, created: Result<string>, session: Option<string>, now: string)
      returns (reply: Reply)
      modifies this
      ensures !Auth.IsCampusEmail(email) ==> reply == Reply(400, Failure("Invalid email. Must use @bennett.edu.in")) && data == old(data)
      ensures Auth.IsCampusEmail(email) && created.Err? ==> reply == Reply(400, Failure(created.message)) && data == old(data)
      ensures Auth.IsCampusEmail(email) && created.Ok? && session.None? ==>
        reply == Reply(500, Failure("Failed to create session")) && data == old(data)
      ensures Auth.IsCampusEmail(email) && created.Ok? && session.Some? ==>
        reply == Reply(200, SignedUp(created.value, session.value))
        && data == old(data)[UserKey(created.value) := ProfileValue(NewProfile(created.value, email.value, name, now))]
                            [AllProfilesKey := IdsValue(GetIds(old(data), AllProfilesKey) + [created.value])]
    {
      if !Auth.IsCampusEmail(email) {
        return Reply(400, Failure("Invalid email. Must use @bennett.edu.in"));
      }
      if created.Err? {
        return Reply(400, Failure(created.message));
      }
      if session.None? {
        return Reply(500, Failure("Failed to create session"));
      }
      var id := created.value;
      data := data[UserKey(id) := ProfileValue(NewProfile(id, email.value, name, now))];
      KeysDistinct(id, "", "", "");
      var all := GetIds(data, AllProfilesKey);
      data := data[AllProfilesKey := IdsValue(all + [id])];
      return Reply(200, SignedUp(id, session.value));
    }

    /** POST profile: merge the body into the stored profile, or into `{}` when there is none. */
    method UpdateProfile(header: Option<string>, getUser: string -> Option<string>, body: Body, now: string)
      returns (reply: Reply)
      modifies this
      ensures Auth.VerifyUserLoose(header, getUser).None? ==> reply == Reply(401, Failure("Unauthorized")) && data == old(data)
      ensures Auth.VerifyUserLoose(header, getUser).Some? ==>
        var id := Auth.VerifyUserLoose(header, getUser).value;
        var existing := GetProfile(old(data), UserKey(id)).GetOr(EmptyProfile(id));
        var p := MergeProfile(existing, id, body, now);
        reply == Reply(200, Saved(p)) && data == old(data)[UserKey(id) := ProfileValue(p)]
    {
      var user := Auth.VerifyUserLoose(header, getUser);
      if user.None? {
        return Reply(401, Failure("Unauthorized"));
      }
      var id := user.value;
      var existing := GetProfile(data, UserKey(id)).GetOr(EmptyProfile(id));
      var p := MergeProfile(existing, id, body, now);
      data := data[UserKey(id) := ProfileValue(p)];
      return Reply(200, Saved(p));
    }

    /** GET matches/potential: walk `profiles:all` in order and keep the offered profiles. */
    method PotentialMatches(header: Option<string>, getUser: string -> Option<string>) returns (reply: Reply)
      ensures Auth.VerifyUserLoose(header, getUser).None? ==> reply == Reply(401, Failure("Unauthorized"))
      ensures Auth.VerifyUserLoose(header, getUser).Some? ==>
        reply == Reply(200, Potential(PotentialFrom(data, Auth.VerifyUserLoose(header, getUser).value, GetIds(data, AllProfilesKey))))
    {
      var user := Auth.VerifyUserLoose(header, getUser);
      if user.None? {
        return Reply(401, Failure("Unauthorized"));
      }
      var caller := user.value;
      var ids := GetIds(data, AllProfilesKey);
      var found: seq<Profile> := [];
      var i := 0;
      while i < |ids|
        invariant 0 <= i <= |ids|
        invariant found == PotentialFrom(data, caller, ids[..i])
      {
        var pid := ids[i];
        assert ids[..i + 1][..i] == ids[..i];
        if pid != caller {
          var swipe := SwipeDirection(data, SwipeKey(caller, pid));
          if !Truthy(swipe) {
            var profile := GetProfile(data, UserKey(pid));
            if profile.Some? && HasSongs(profile.value) {
              found := found + [profile.value];
            }
          }
        }
        i := i + 1;
      }
      assert ids[..i] == ids;
      return Reply(200, Potential(found));
    }

    /** POST matches/swipe. */
    method Swipe(header: Option<string>, getUser: string -> Option<string>, target: string, direction: JsValue, now: string)
      returns (reply: Reply)
      modifies this
      ensures Auth.VerifyUserLoose(header, getUser).None? ==> reply == Reply(401, Failure("Unauthorized")) && data == old(data)
      ensures Auth.VerifyUserLoose(header, getUser).Some? ==>
        var caller := Auth.VerifyUserLoose(header, getUser).value;
        var d1 := RecordDirection(old(data), caller, target, direction);
        var d2 := CountRightSwipe(d1, target);
        var isMatch := direction == Text("right") && SwipeDirection(d2, SwipeKey(target, caller)) == Text("right");
        reply == Reply(200, SwipeDone(isMatch))
        && data == (if direction != Text("right") then d1 else if !isMatch then d2 else RecordMatch(d2, caller, target, now))
    {
      var user := Auth.VerifyUserLoose(header, getUser);
      if user.None? {
        return Reply(401, Failure("Unauthorized"));
      }
      var caller := user.value;
      data := data[SwipeKey(caller, target) := SwipeValue(direction)];
      var isMatch := false;
      if direction == Text("right") {
        var targetProfile := GetProfile(data, UserKey(target));
        if targetProfile.Some? {
          var p := targetProfile.value;
          data := data[UserKey(target) := ProfileValue(p.(stats := p.stats.(rightSwipes := Increment(p.stats.rightSwipes))))];
        }
        var reciprocal := SwipeDirection(data, SwipeKey(target, caller));
        if reciprocal == Text("right") {
          isMatch := true;
          var userMatches := GetIds(data, MatchesKey(caller));
          var targetMatches := GetIds(data, MatchesKey(target));
          data := data[MatchesKey(caller) := IdsValue(userMatches + [target])];
          data := data[MatchesKey(target) := IdsValue(targetMatches + [caller])];
          var cid := ConversationId(caller, target);
          data := data[ConversationKey(cid) := ConversationValue(Conversation(cid, [caller, target], now, None))];
        }
      }
      return Reply(200, SwipeDone(isMatch));
    }

    /** GET messages/conversations: one summary per matched id, in match order. */
    method ListConversations(header: Option<string>, getUser: string -> Option<string>) returns (reply: Reply)
      ensures Auth.VerifyUserLoose(header, getUser).None? ==> reply == Reply(401, Failure("Unauthorized"))
      ensures Auth.VerifyUserLoose(header, getUser).Some? ==>
        var caller := Auth.VerifyUserLoose(header, getUser).value;
        reply == Reply(200, Conversations(SummariesFrom(data, caller, GetIds(data, MatchesKey(caller)))))
    {
      var user := Auth.VerifyUserLoose(header, getUser);
      if user.None? {
        return Reply(401, Failure("Unauthorized"));
      }
      var caller := user.value;
      var matchIds := GetIds(data, MatchesKey(caller));
      var list: seq<Summary> := [];
      var i := 0;
      while i < |matchIds|
        invariant 0 <= i <= |matchIds|
        invariant list == SummariesFrom(data, caller, matchIds[..i])
      {
        var matchId := matchIds[i];
        var cid := ConversationId(caller, matchId);
        var messages := GetMessages(data, MessagesKey(cid));
        var otherUser := GetProfile(data, UserKey(matchId));
        list := list + [Summary(cid, otherUser, if |messages| > 0 then Some(messages[|messages| - 1]) else None,
                                |messages|, |messages| == 0)];
        i := i + 1;
      }
      assert matchIds[..i] == matchIds;
      return Reply(200, Conversations(list));
    }

    /** POST messages/send. `messageId` is `crypto.randomUUID()`. */
    method SendMessage(header: Option<string>, getUser: string -> Option<string>, conversationId: string, text: JsValue,
                       messageId: string, now: string)
      returns (reply: Reply)
      modifies this
      ensures Auth.VerifyUserLoose(header, getUser).None? ==> reply == Reply(401, Failure("Unauthorized")) && data == old(data)
      ensures Auth.VerifyUserLoose(header, getUser).Some? ==>
        var m := Message(messageId, conversationId, Auth.VerifyUserLoose(header, getUser).value, text, now);
        var d1 := old(data)[MessagesKey(conversationId) := MessagesValue(GetMessages(old(data), MessagesKey(conversationId)) + [m])];
        reply == Reply(200, Sent(m))
        && data == match GetConversation(d1, ConversationKey(conversationId))
                   case Some(c) => d1[ConversationKey(conversationId) := ConversationValue(c.(lastMessage := Some(m)))]
                   case None => d1
    {
      var user := Auth.VerifyUserLoose(header, getUser);
      if user.None? {
        return Reply(401, Failure("Unauthorized"));
      }
      var messages := GetMessages(data, MessagesKey(conversationId));
      var m := Message(messageId, conversationId, user.value, text, now);
      data := data[MessagesKey(conversationId) := MessagesValue(messages + [m])];
      var conversation := GetConversation(data, ConversationKey(conversationId));
      if conversation.Some? {
        data := data[ConversationKey(conversationId) := ConversationValue(conversation.value.(lastMessage := Some(m)))];
      }
      return Reply(200, Sent(m));
    }

    /** The leaderboard's walk over `profiles:all`: the listed profiles, in signup order. */
    method CollectRanked(category: string) returns (profiles: seq<Profile>)
      ensures profiles == RankedFrom(data, category, GetIds(data, AllProfilesKey))
    {
      var ids := GetIds(data, AllProfilesKey);
      profiles := [];
      var i := 0;
      while i < |ids|
        invariant 0 <= i <= |ids|
        invariant profiles == RankedFrom(data, category, ids[..i])
      {
        var profile := GetProfile(data, UserKey(ids[i]));
        assert ids[..i + 1][..i] == ids[..i];
        if profile.Some? && HasSongs(profile.value) {
          if category == "All" || profile.value.stats.category == Text(category) {
            profiles := profiles + [profile.value];
          }
        }
        i := i + 1;
      }
      assert ids[..i] == ids;
    }

    /** GET leaderboard: no caller check; ranks are written back to every listed profile. */
    method Leaderboard(query: Option<string>) returns (reply: Reply)
      modifies this
      ensures var category := if TruthyText(query) then query.value else "All";
        var board := LeaderboardOf(old(data), category);
        reply == Reply(200, Board(board)) && data == WriteRanks(old(data), board)
    {
      var category := if TruthyText(query) then query.value else "All";
      var profiles := CollectRanked(category);
      var sorted := Ranking.SortDesc(profiles, RightSwipes);
      var board := WithRanks(sorted);
      WriteBack(board);
      return Reply(200, Board(board));
    }

    /** The leaderboard's rank writes: each ranked profile is stored back under its own key, in order. */
    method WriteBack(board: seq<Profile>)
      modifies this
      ensures data == WriteRanks(old(data), board)
    {
      var j := 0;
      while j < |board|
        invariant 0 <= j <= |board|
        invariant data == WriteRanks(old(data), board[..j])
      {
        WriteRanksStep(old(data), board, j);
        data := data[UserKey(board[j].id) := ProfileValue(board[j])];
        j := j + 1;
      }
      assert board[..j] == board;
    }
  }

  /** The reciprocal swipe is still there after the caller's swipe is recorded and counted. */
  lemma ReciprocalSurvives(data: Store, caller: string, target: string, direction: JsValue)
    requires caller != target && ':' !in caller && ':' !in target
    ensures var d2 := CountRightSwipe(RecordDirection(data, caller, target, direction), target);
      SwipeDirection(d2, SwipeKey(target, caller)) == SwipeDirection(data, SwipeKey(target, caller))
  {
    KeysDistinct(target, target, caller, "");
    assert SwipeKey(target, caller) != SwipeKey(caller, target) by {
      if SwipeKey(target, caller) == SwipeKey(caller, target) {
        SwipeKeyInjective(target, caller, caller, target);
      }
    }
  }

  /** After a match each side lists the other, and the conversation is found from either side. */
  lemma MatchRecordedBothWays(data: Store, caller: string, target: string, now: string)
    requires caller != target
    ensures var d := RecordMatch(data, caller, target, now);
      target in GetIds(d, MatchesKey(caller)) && caller in GetIds(d, MatchesKey(target))
      && GetConversation(d, ConversationKey(ConversationId(target, caller))).Some?
  {
    var cid := ConversationId(caller, target);
    var callerKey, targetKey := MatchesKey(caller), MatchesKey(target);
    var m1 := data[callerKey := IdsValue(GetIds(data, callerKey) + [target])];
    var m2 := m1[targetKey := IdsValue(GetIds(data, targetKey) + [caller])];
    var d := m2[ConversationKey(cid) := ConversationValue(Conversation(cid, [caller, target], now, None))];
    assert d == RecordMatch(data, caller, target, now);
    KeysDistinct(caller, caller, cid, cid);
    KeysDistinct(target, target, cid, cid);
    assert callerKey != targetKey by {
      assert callerKey[8..] == caller && targetKey[8..] == target;
    }
    assert d[callerKey] == m1[callerKey];
    assert d[targetKey] == m2[targetKey];
    ConversationIdSymmetric(caller, target);
  }

  /** A swipe key names one ordered pair, when neither id contains ':'. */
  lemma SwipeKeyInjective(a: string, b: string, c: string, d: string)
    requires ':' !in a && ':' !in c
    requires SwipeKey(a, b) == SwipeKey(c, d)
    ensures a == c && b == d
  {
    assert ("swipe:" + a + ":" + b)[6..] == a + ":" + b;
    assert ("swipe:" + c + ":" + d)[6..] == c + ":" + d;
    ColonSplit(a, b, c, d);
  }

  /** Position of the first `ch` in `s`, or `|s|` when there is none. */
  function IndexOf(s: string, ch: char): (k: nat)
    ensures k <= |s|
  {
    if |s| == 0 then 0 else if s[0] == ch then 0 else 1 + IndexOf(s[1..], ch)
  }

  lemma {:induction false} IndexOfSeparator(a: string, b: string)
    requires ':' !in a
    ensures IndexOf(a + ":" + b, ':') == |a|
    decreases |a|
  {
    if |a| > 0 {
      assert a[0] in a;
      assert (a + ":" + b)[1..] == a[1..] + ":" + b;
      assert ':' !in a[1..] by { assert forall x :: x in a[1..] ==> x in a; }
      IndexOfSeparator(a[1..], b);
    }
  }

  lemma ColonSplit(a: string, b: string, c: string, d: string)
    requires ':' !in a && ':' !in c
    requires a + ":" + b == c + ":" + d
    ensures a == c && b == d
  {
    IndexOfSeparator(a, b);
    IndexOfSeparator(c, d);
    var s := a + ":" + b;
    assert a == s[..|a|] && c == s[..|c|];
    assert b == s[|a| + 1..] && d == s[|c| + 1..];
  }
}
