// The Postgres tables behind the two relational edge-function variants
// (supabase/functions/make-server-2e8e40fd/index.ts and
// supabase/functions/server/index.ts), the Supabase query shapes they use
// (`.single()`, `.maybeSingle()`, `.update().eq()`), and the two handlers
// both variants share line for line: recording a swipe and sending a message.

module Tables {
  import opened Js
  import JsText

  /** A row of `users` or `user_profiles`: its key and its other columns by name. */
  datatype UserRow = UserRow(id: string, columns: map<string, JsValue>)
  datatype ProfileRow = ProfileRow(userId: string, columns: map<string, JsValue>)

  /** `song_id` is nullable. */
  type SongId = Option<string>

  datatype SwipeRow = SwipeRow(swiper: string, swiped: string, song: SongId, direction: JsValue)
  datatype MatchRow = MatchRow(user1: string, user2: string, song: SongId, score: int)
  datatype ConversationRow = ConversationRow(user1: string, user2: string, lastMessageAt: string, lastMessage: JsValue)
  datatype MessageRow = MessageRow(sender: string, recipient: string, content: JsValue)

  /** What a handler answers: an HTTP status and the JSON it carries. */
  datatype Reply = Reply(status: int, body: Payload)

  datatype Payload =
    | Failure(error: string)
    | OtpSent
    | Verified(user: UserRow, session: string)
    | SignedUp(userId: string, session: string)
    | LoggedIn(user: UserRow, session: string)
    | OtpAccepted
    | ProfileSaved(saved: Option<UserRow>)
    | Swiped(matched: bool)
    | MessageSent

  /** What a query ending in `.maybeSingle()` sees. */
  datatype Lookup<T> = NoRow | OneRow(row: T) | ManyRows

  function CountWhere<T>(rows: seq<T>, p: T -> bool): (n: nat)
    ensures n <= |rows|
  {
    if |rows| == 0 then 0 else (if p(rows[0]) then 1 else 0) + CountWhere(rows[1..], p)
  }

  /** The first row satisfying `p`. */
  function FirstWhere<T>(rows: seq<T>, p: T -> bool): (r: Option<T>)
    ensures r.Some? ==> r.value in rows && p(r.value)
    ensures r.None? <==> CountWhere(rows, p) == 0
  {
    if |rows| == 0 then None else if p(rows[0]) then Some(rows[0]) else FirstWhere(rows[1..], p)
  }

  /** `.single()`: the row when exactly one row matches, otherwise no data. */
  function Single<T>(rows: seq<T>, p: T -> bool): (r: Option<T>)
  {
    if CountWhere(rows, p) == 1 then FirstWhere(rows, p) else None
  }

  /** `.maybeSingle()`: no row, the one row, or an error when several match. */
  function MaybeSingle<T>(rows: seq<T>, p: T -> bool): (r: Lookup<T>)
  {
    var n := CountWhere(rows, p);
    if n == 0 then NoRow else if n == 1 then OneRow(FirstWhere(rows, p).value) else ManyRows
  }

  /** `.single()` finds a row exactly when one row matches, and that row matches. */
  lemma SingleMeaning<T>(rows: seq<T>, p: T -> bool)
    ensures Single(rows, p).Some? <==> CountWhere(rows, p) == 1
    ensures Single(rows, p).Some? ==> Single(rows, p).value in rows && p(Single(rows, p).value)
  {
  }

  /** `.maybeSingle()` reports a row when one matches and an error only when several do. */
  lemma MaybeSingleMeaning<T>(rows: seq<T>, p: T -> bool)
    ensures MaybeSingle(rows, p).NoRow? <==> forall i :: 0 <= i < |rows| ==> !p(rows[i])
    ensures MaybeSingle(rows, p).OneRow? ==> MaybeSingle(rows, p).row in rows && p(MaybeSingle(rows, p).row)
    ensures MaybeSingle(rows, p).ManyRows? <==> CountWhere(rows, p) >= 2
  {
    NoneMatch(rows, p);
  }

  lemma {:induction false} NoneMatch<T>(rows: seq<T>, p: T -> bool)
    ensures CountWhere(rows, p) == 0 <==> forall i :: 0 <= i < |rows| ==> !p(rows[i])
    decreases |rows|
  {
    if |rows| > 0 {
      NoneMatch(rows[1..], p);
      assert forall i :: 1 <= i < |rows| ==> rows[i] == rows[1..][i - 1];
    }
  }

  lemma {:induction false} CountAppend<T>(rows: seq<T>, extra: seq<T>, p: T -> bool)
    ensures CountWhere(rows + extra, p) == CountWhere(rows, p) + CountWhere(extra, p)
    decreases |rows|
  {
    if |rows| > 0 {
      CountAppend(rows[1..], extra, p);
      assert (rows + extra)[1..] == rows[1..] + extra;
      assert (rows + extra)[0] == rows[0];
    } else {
      assert rows + extra == extra;
    }
  }

  /** `.update(f).eq(...)`: every matching row is rewritten, the others are kept. */
  function UpdateWhere<T>(rows: seq<T>, p: T -> bool, f: T -> T): (r: seq<T>)
    ensures |r| == |rows|
    ensures forall i :: 0 <= i < |rows| ==> r[i] == if p(rows[i]) then f(rows[i]) else rows[i]
  {
    seq(|rows|, i requires 0 <= i < |rows| => if p(rows[i]) then f(rows[i]) else rows[i])
  }

  /** The ordered pair both relational handlers store: `a < b ? a : b`, then the other one. */
  function OrderedPair(a: string, b: string): (r: (string, string))
  {
    if JsText.Less(a, b) then (a, b) else (b, a)
  }

  /** The stored pair does not depend on who acts, it is ordered, and it is the key-value server's sorted pair. */
  lemma OrderedPairCanonical(a: string, b: string)
    ensures OrderedPair(a, b) == OrderedPair(b, a)
    ensures !JsText.Less(OrderedPair(a, b).1, OrderedPair(a, b).0)
    ensures {OrderedPair(a, b).0, OrderedPair(a, b).1} == {a, b}
    ensures OrderedPair(a, b) == JsText.SortPair(a, b)
  {
    JsText.LessAsymmetric(a, b);
    if a != b { JsText.LessTotal(a, b); } else { JsText.LessIrreflexive(a); }
  }

  /** `.eq('song_id', song_id)`; whether a null song id equals a null column is `nullEq`. */
  predicate SongEq(column: SongId, wanted: SongId, nullEq: bool)
  {
    if column.Some? && wanted.Some? then column.value == wanted.value
    else column.None? && wanted.None? && nullEq
  }

  /** The reciprocal like that makes a match: the target liked the caller for the same song. */
  predicate Reciprocal(row: SwipeRow, caller: string, target: string, song: SongId, nullEq: bool)
  {
    row.swiper == target && row.swiped == caller && SongEq(row.song, song, nullEq) && row.direction == Text("like")
  }

  /** A match is found only when exactly one reciprocal like exists. */
  function FindReciprocal(swipes: seq<SwipeRow>, caller: string, target: string, song: SongId, nullEq: bool): (r: Option<SwipeRow>)
  {
    Single(swipes, (row: SwipeRow) => Reciprocal(row, caller, target, song, nullEq))
  }

  /** Two reciprocal likes for the same song make `.single()` see no row, so no match is made. */
  lemma DuplicateLikesHideMatch(swipes: seq<SwipeRow>, i: int, j: int, caller: string, target: string, song: SongId, nullEq: bool)
    requires 0 <= i < j < |swipes|
    requires Reciprocal(swipes[i], caller, target, song, nullEq) && Reciprocal(swipes[j], caller, target, song, nullEq)
    ensures FindReciprocal(swipes, caller, target, song, nullEq) == None
  {
    var p := (row: SwipeRow) => Reciprocal(row, caller, target, song, nullEq);
    assert swipes == swipes[..i] + ([swipes[i]] + (swipes[i + 1..j] + ([swipes[j]] + swipes[j + 1..])));
    CountAppend(swipes[..i], [swipes[i]] + (swipes[i + 1..j] + ([swipes[j]] + swipes[j + 1..])), p);
    CountAppend([swipes[i]], swipes[i + 1..j] + ([swipes[j]] + swipes[j + 1..]), p);
    CountAppend(swipes[i + 1..j], [swipes[j]] + swipes[j + 1..], p);
    CountAppend([swipes[j]], swipes[j + 1..], p);
  }

  /** One reciprocal like is found. */
  lemma OneLikeFound(swipes: seq<SwipeRow>, i: int, caller: string, target: string, song: SongId, nullEq: bool)
    requires 0 <= i < |swipes| && Reciprocal(swipes[i], caller, target, song, nullEq)
    requires forall j :: 0 <= j < |swipes| && j != i ==> !Reciprocal(swipes[j], caller, target, song, nullEq)
    ensures FindReciprocal(swipes, caller, target, song, nullEq) == Some(swipes[i])
  {
    var p := (row: SwipeRow) => Reciprocal(row, caller, target, song, nullEq);
    assert swipes == swipes[..i] + ([swipes[i]] + swipes[i + 1..]);
    CountAppend(swipes[..i], [swipes[i]] + swipes[i + 1..], p);
    CountAppend([swipes[i]], swipes[i + 1..], p);
    NoneMatch(swipes[..i], p);
    NoneMatch(swipes[i + 1..], p);
    FirstAfterNone(swipes[..i], [swipes[i]] + swipes[i + 1..], p);
  }

  lemma {:induction false} FirstAfterNone<T>(rows: seq<T>, rest: seq<T>, p: T -> bool)
    requires forall k :: 0 <= k < |rows| ==> !p(rows[k])
    ensures FirstWhere(rows + rest, p) == FirstWhere(rest, p)
    decreases |rows|
  {
    if |rows| > 0 {
      assert (rows + rest)[1..] == rows[1..] + rest;
      assert (rows + rest)[0] == rows[0];
      FirstAfterNone(rows[1..], rest, p);
    } else {
      assert rows + rest == rest;
    }
  }

  /** The row a conversation write leaves for the pair: the new last message and its time. */
  function Touch(row: ConversationRow, now: string, content: JsValue): (r: ConversationRow)
  {
    row.(lastMessageAt := now, lastMessage := content)
  }

  predicate SamePair(row: ConversationRow, u1: string, u2: string)
  {
    row.user1 == u1 && row.user2 == u2
  }

  /** The stored tables, updated in place by the handlers. */
  class Database {
    var users: seq<UserRow>
    var profiles: seq<ProfileRow>
    var swipes: seq<SwipeRow>
    var matches: seq<MatchRow>
    var conversations: seq<ConversationRow>
    var messages: seq<MessageRow>

    constructor ()
      ensures users == [] && profiles == [] && swipes == [] && matches == []
      ensures conversations == [] && messages == []
    {
      users, profiles, swipes, matches, conversations, messages := [], [], [], [], [], [];
    }

    /**
     * POST matches/swipe once the caller is known. `insertError` and
     * `matchInsertError` are what the database answers to the two inserts;
     * the second is not looked at.
     */
    method RecordSwipe(caller: string, target: string, song: SongId, direction: JsValue, nullEq: bool,
                       insertError: Option<string>, matchInsertError: Option<string>)
      returns (reply: Reply)
      modifies this
      ensures users == old(users) && profiles == old(profiles)
      ensures conversations == old(conversations) && messages == old(messages)
      ensures direction != Text("like") && direction != Text("skip") ==>
        reply == Reply(400, Failure("Invalid direction")) && swipes == old(swipes) && matches == old(matches)
      ensures (direction == Text("like") || direction == Text("skip")) && insertError.Some? ==>
        reply == Reply(500, Failure(insertError.value)) && swipes == old(swipes) && matches == old(matches)
      ensures (direction == Text("like") || direction == Text("skip")) && insertError.None? ==>
        swipes == old(swipes) + [SwipeRow(caller, target, song, direction)]
      ensures (direction == Text("like") || direction == Text("skip")) && insertError.None? ==>
        var matched := direction == Text("like") && FindReciprocal(swipes, caller, target, song, nullEq).Some?;
        var pair := OrderedPair(caller, target);
        reply == Reply(200, Swiped(matched))
        && matches == old(matches) + (if matched && matchInsertError.None? then [MatchRow(pair.0, pair.1, song, 100)] else [])
    {
      if direction != Text("like") && direction != Text("skip") {
        return Reply(400, Failure("Invalid direction"));
      }
      if insertError.Some? {
        return Reply(500, Failure(insertError.value));
      }
      swipes := swipes + [SwipeRow(caller, target, song, direction)];
      if direction == Text("like") {
        var reciprocal := FindReciprocal(swipes, caller, target, song, nullEq);
        if reciprocal.Some? {
          var user1 := if JsText.Less(caller, target) then caller else target;
          var user2 := if JsText.Less(caller, target) then target else caller;
          if matchInsertError.None? {
            matches := matches + [MatchRow(user1, user2, song, 100)];
          }
          return Reply(200, Swiped(true));
        }
      }
      return Reply(200, Swiped(false));
    }

    /**
     * POST messages/send once the caller is known. The message insert's
     * error is reported; the conversation write's is not looked at.
     */
    method SendMessage(caller: string, recipient: Option<string>, content: JsValue, now: string,
                       insertError: Option<string>, conversationWriteOk: bool)
      returns (reply: Reply)
      modifies this
      ensures users == old(users) && profiles == old(profiles)
      ensures swipes == old(swipes) && matches == old(matches)
      ensures !TruthyText(recipient) || !Truthy(content) ==>
        reply == Reply(400, Failure("Missing required fields"))
        && messages == old(messages) && conversations == old(conversations)
      ensures TruthyText(recipient) && Truthy(content) && insertError.Some? ==>
        reply == Reply(500, Failure(insertError.value))
        && messages == old(messages) && conversations == old(conversations)
      ensures TruthyText(recipient) && Truthy(content) && insertError.None? ==>
        var pair := OrderedPair(caller, recipient.value);
        var existing := Single(old(conversations), (row: ConversationRow) => SamePair(row, pair.0, pair.1));
        reply == Reply(200, MessageSent)
        && messages == old(messages) + [MessageRow(caller, recipient.value, content)]
        && conversations ==
          if !conversationWriteOk then old(conversations)
          else if existing.Some? then
            UpdateWhere(old(conversations), (row: ConversationRow) => SamePair(row, pair.0, pair.1),
                        (row: ConversationRow) => Touch(row, now, content))
          else old(conversations) + [ConversationRow(pair.0, pair.1, now, content)]
    {
      if !TruthyText(recipient) || !Truthy(content) {
        return Reply(400, Failure("Missing required fields"));
      }
      if insertError.Some? {
        return Reply(500, Failure(insertError.value));
      }
      var other := recipient.value;
      messages := messages + [MessageRow(caller, other, content)];
      var user1 := if JsText.Less(caller, other) then caller else other;
      var user2 := if JsText.Less(caller, other) then other else caller;
      var existing := Single(conversations, (row: ConversationRow) => SamePair(row, user1, user2));
      if conversationWriteOk {
        if existing.Some? {
          conversations := UpdateWhere(conversations, (row: ConversationRow) => SamePair(row, user1, user2),
                                       (row: ConversationRow) => Touch(row, now, content));
        } else {
          conversations := conversations + [ConversationRow(user1, user2, now, content)];
        }
      }
      return Reply(200, MessageSent);
    }
  }

  /** After a send, the pair's conversation row carries the message whenever it was written. */
  lemma SentMessageIsLast(rows: seq<ConversationRow>, u1: string, u2: string, now: string, content: JsValue)
    requires Single(rows, (row: ConversationRow) => SamePair(row, u1, u2)).Some?
    ensures var p := (row: ConversationRow) => SamePair(row, u1, u2);
            var after := UpdateWhere(rows, p, (row: ConversationRow) => Touch(row, now, content));
            CountWhere(after, p) == 1
            && Single(after, p).Some? && Single(after, p).value.lastMessage == content
            && Single(after, p).value.lastMessageAt == now
  {
    var p := (row: ConversationRow) => SamePair(row, u1, u2);
    var f := (row: ConversationRow) => Touch(row, now, content);
    UpdateKeepsCount(rows, p, f);
    var after := UpdateWhere(rows, p, f);
    var r := Single(after, p).value;
    var k :| 0 <= k < |after| && after[k] == r;
    assert p(rows[k]);
  }

  lemma {:induction false} UpdateKeepsCount(rows: seq<ConversationRow>, p: ConversationRow -> bool, f: ConversationRow -> ConversationRow)
    requires forall row :: p(row) ==> p(f(row))
    ensures CountWhere(UpdateWhere(rows, p, f), p) == CountWhere(rows, p)
    decreases |rows|
  {
    if |rows| > 0 {
      UpdateKeepsCount(rows[1..], p, f);
      assert UpdateWhere(rows, p, f)[1..] == UpdateWhere(rows[1..], p, f);
    }
  }
}
