// The swipe pool of src/components/SwipePoolScreen.tsx: a deck of profiles,
// a cursor into it and the stack of ids swiped so far, which undo pops. The
// swipe request's outcome is a parameter (the `isMatch` the reply carries, or
// None when the call throws), and so is the coin the screen flips for a
// right swipe whose request failed.

module SwipeDeck {
  import opened Js

  /** The fields of a deck card the handlers read. */
  datatype Card = Card(id: string, name: string)

  /** The cursor and the undo stack. */
  datatype Cursor = Cursor(index: nat, history: seq<string>)

  datatype SwipeToast = Quiet | ItsAMatch(name: string) | Liked(name: string)

  /** The built-in deck shown when the server has no profiles to offer. */
  const MockDeck: seq<Card> := [Card("1", "Sarah"), Card("2", "Arjun"), Card("3", "Priya"),
                                Card("4", "Simran"), Card("5", "Rohit"), Card("6", "Neha")]

  /** The cursor after swiping the card with id `id`. */
  function AfterSwipe(c: Cursor, id: string): (r: Cursor)
    ensures r.index == c.index + 1 && |r.history| == |c.history| + 1
    ensures r.history[..|c.history|] == c.history && r.history[|c.history|] == id
  {
    Cursor(c.index + 1, c.history + [id])
  }

  /** The cursor after `handleUndo`: nothing happens at the start of the deck. */
  function AfterUndo(c: Cursor): (r: Cursor)
  {
    if c.index > 0 && |c.history| > 0 then Cursor(c.index - 1, c.history[..|c.history| - 1]) else c
  }

  /** Undo takes back exactly the last swipe. */
  lemma UndoAfterSwipe(c: Cursor, id: string)
    ensures AfterUndo(AfterSwipe(c, id)) == c
  {
    assert (c.history + [id])[..|c.history|] == c.history;
  }

  /** Swipe and undo keep the undo stack as deep as the cursor is far into the deck. */
  lemma StackTracksCursor(c: Cursor, id: string)
    requires |c.history| == c.index
    ensures |AfterSwipe(c, id).history| == AfterSwipe(c, id).index
    ensures |AfterUndo(c).history| == AfterUndo(c).index
    ensures c.index > 0 ==> AfterUndo(c).index == c.index - 1
  {
  }

  /** The toast a swipe shows: `reply` is the `isMatch` of the answer, None when the request threw. */
  function SwipeToastFor(direction: string, reply: Option<bool>, lucky: bool, name: string): (t: SwipeToast)
    ensures t.ItsAMatch? ==> reply == Some(true) || (reply.None? && direction == "right" && lucky)
    ensures direction != "right" ==> (t.Quiet? <==> reply != Some(true))
    ensures direction == "right" ==> !t.Quiet?
  {
    match reply
    case Some(isMatch) =>
      if isMatch then ItsAMatch(name) else if direction == "right" then Liked(name) else Quiet
    case None =>
      if direction == "right" then (if lucky then ItsAMatch(name) else Liked(name)) else Quiet
  }

  class SwipePool {
    var deck: seq<Card>
    var cursor: Cursor
    var loading: bool

    /** The undo stack is as deep as the cursor and holds the ids of the cards passed, in order. */
    predicate Valid()
      reads this
    {
      && |cursor.history| == cursor.index
      && cursor.index <= |deck|
      && (forall k :: 0 <= k < cursor.index ==> cursor.history[k] == deck[k].id)
      && (loading ==> cursor.index == 0)
    }

    constructor()
      ensures Valid()
      ensures deck == MockDeck && cursor == Cursor(0, []) && loading
    {
      deck := MockDeck;
      cursor := Cursor(0, []);
      loading := true;
    }

    /** The deck is used up and the Review Again screen shows. */
    predicate Exhausted()
      reads this
    {
      cursor.index >= |deck|
    }

    /** The counter of cards left. */
    function Remaining(): (n: int)
      reads this
      ensures Valid() ==> n >= 0 && (n == 0 <==> Exhausted())
    {
      |deck| - cursor.index
    }

    /** `loadProfiles`: `fetched` is the server's list, None when the request threw. */
    method LoadProfiles(fetched: Option<seq<Card>>)
      requires Valid() && loading
      modifies this
      ensures Valid() && !loading && cursor == old(cursor)
      ensures deck == (if fetched.Some? && |fetched.value| > 0 then fetched.value else MockDeck)
    {
      if fetched.Some? && |fetched.value| > 0 {
        deck := fetched.value;
      } else {
        deck := MockDeck;
      }
      loading := false;
    }

    /** `handleSwipe(direction)`: returns the request sent and the toast; the card is passed whatever the outcome. */
    method HandleSwipe(direction: string, reply: Option<bool>, lucky: bool) returns (target: string, toast: SwipeToast)
      requires Valid() && !loading && !Exhausted()
      modifies this
      ensures Valid() && deck == old(deck) && loading == old(loading)
      ensures target == old(deck[cursor.index].id)
      ensures cursor == AfterSwipe(old(cursor), target)
      ensures toast == SwipeToastFor(direction, reply, lucky, old(deck[cursor.index].name))
    {
      var current := deck[cursor.index];
      target := current.id;
      toast := SwipeToastFor(direction, reply, lucky, current.name);
      cursor := AfterSwipe(cursor, current.id);
    }

    /** `handleUndo`: returns whether the "Undone!" toast shows. */
    method HandleUndo() returns (undone: bool)
      requires Valid()
      modifies this
      ensures Valid() && deck == old(deck) && loading == old(loading)
      ensures cursor == AfterUndo(old(cursor))
      ensures undone <==> old(cursor.index) > 0
    {
      undone := cursor.index > 0 && |cursor.history| > 0;
      cursor := AfterUndo(cursor);
    }

    /** The Review Again button: back to the first card with an empty stack. */
    method ReviewAgain()
      requires Valid()
      modifies this
      ensures Valid() && deck == old(deck) && loading == old(loading)
      ensures cursor == Cursor(0, [])
    {
      cursor := Cursor(0, []);
    }
  }
}
