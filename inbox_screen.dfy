// The inbox of src/components/InboxScreen.tsx: the conversation list, the
// open chat and its messages, the draft, and the send handler. The send
// handler is split at its `await`: `BeginSend` validates and captures what
// the handler's closure sees, `FinishSend` applies the outcome to that
// captured state. The clock, `Date` parsing and `toLocaleTimeString` are
// parameters.

module Inbox {
  import opened Js
  import JsText
  import JsNumber

  /** A shown time: blank, `<m>m`, `<h>h`, or a clock time whose text the locale formatter chose. */
  datatype TimeLabel = Blank | Minutes(m: int) | Hours(h: int) | Clock(text: string)

  /**
   * `formatTimestamp(timestamp)`: `sentMs` is `new Date(timestamp).getTime()`
   * (None for an invalid date, whose difference is NaN), `nowMs` the clock and
   * `clock` what `toLocaleTimeString` renders.
   */
  function FormatTimestamp(timestamp: string, sentMs: Option<int>, nowMs: int, clock: string): (l: TimeLabel)
    ensures timestamp == "" <==> l == Blank
    ensures l.Minutes? ==> sentMs.Some? && l.m == (nowMs - sentMs.value) / 60000 && l.m < 60
    ensures l.Hours? ==> sentMs.Some? && l.h == (nowMs - sentMs.value) / 3600000 && l.h < 24
    ensures timestamp != "" && sentMs.None? ==> l == Clock(clock)
  {
    if timestamp == "" then Blank
    else if sentMs.None? then Clock(clock)
    else
      var diffMs := nowMs - sentMs.value;
      var diffMins := diffMs / 60000;
      var diffHours := diffMs / 3600000;
      if diffMins < 60 then Minutes(diffMins)
      else if diffHours < 24 then Hours(diffHours)
      else Clock(clock)
  }

  /** Minutes show for anything under an hour old, hours for anything under a day, the clock otherwise. */
  lemma TimestampBands(timestamp: string, sentMs: int, nowMs: int, clock: string)
    requires timestamp != ""
    ensures var l := FormatTimestamp(timestamp, Some(sentMs), nowMs, clock);
      var d := nowMs - sentMs;
      && (l.Minutes? <==> d < 3600000)
      && (l.Hours? <==> 3600000 <= d < 86400000)
      && (l.Clock? <==> 86400000 <= d)
  {
    var d := nowMs - sentMs;
    assert d == 60000 * (d / 60000) + d % 60000;
    assert d == 3600000 * (d / 3600000) + d % 3600000;
  }

  datatype Chat = Chat(id: string, name: string, photo: string, lastMessage: string, timestamp: string,
                       isLocked: bool, unread: bool)

  datatype ChatMessage = ChatMessage(id: string, text: string, fromMe: bool, timestamp: TimeLabel)

  const MockChats: seq<Chat> := [
    Chat("1", "Sarah", "https://images.unsplash.com/photo-1494790108377-be9c29b29330?w=400",
         "Love your taste in indie music! 🎵", "2m", false, true),
    Chat("2", "Arjun", "https://images.unsplash.com/photo-1507003211169-0a1dd7228f2d?w=400",
         "Have you heard the new album?", "1h", false, false),
    Chat("3", "Priya", "https://images.unsplash.com/photo-1524504388940-b1c1722653e1?w=400",
         "It's a match! Say hi 👋", "3h", true, true),
    Chat("4", "Vikram", "https://images.unsplash.com/photo-1552374196-c4e7ffc6e126?w=400",
         "Those songs are fire! 🔥", "5h", false, false)
  ]

  const MockMessages: seq<ChatMessage> := [
    ChatMessage("1", "Hey! I saw we both love The Weeknd 🎵", false, Clock("10:30 AM")),
    ChatMessage("2", "Yes! Blinding Lights is my all-time favorite", true, Clock("10:32 AM")),
    ChatMessage("3", "Love your taste in indie music! 🎵", false, Clock("10:35 AM"))
  ]

  /** What the send handler's closure captured when it started. */
  datatype SendSnapshot = SendSnapshot(chat: Chat, messages: seq<ChatMessage>, draft: string)

  /** How the send request ended. */
  datatype SendOutcome =
    | Answered(success: bool, messageId: string, timestamp: string, sentMs: Option<int>, nowMs: int, clock: string)
    | Threw(nowMs: int, clock: string)

  /** The message appended for an outcome, None for a non-success answer. */
  function Appended(snap: SendSnapshot, outcome: SendOutcome): (m: Option<ChatMessage>)
    ensures m.Some? <==> outcome.Threw? || outcome.success
    ensures m.Some? ==> m.value.text == snap.draft && m.value.fromMe
  {
    match outcome
    case Answered(success, id, stamp, sentMs, nowMs, clock) =>
      if success then Some(ChatMessage(id, snap.draft, true, FormatTimestamp(stamp, sentMs, nowMs, clock))) else None
    case Threw(nowMs, clock) =>
      Some(ChatMessage(JsNumber.IntToText(nowMs), snap.draft, true, Clock(clock)))
  }

  class InboxScreen {
    var chats: seq<Chat>
    var selected: Option<Chat>
    var messages: seq<ChatMessage>
    var draft: string
    var loading: bool
    var sending: bool

    constructor()
      ensures chats == MockChats && selected == None && messages == [] && draft == ""
      ensures loading && !sending
    {
      chats := MockChats;
      selected := None;
      messages := [];
      draft := "";
      loading := true;
      sending := false;
    }

    /** `loadConversations`: `fetched` is the server's list, None when the request threw. */
    method LoadConversations(fetched: Option<seq<Chat>>)
      modifies this
      ensures chats == (if fetched.Some? && |fetched.value| > 0 then fetched.value else MockChats)
      ensures !loading && selected == old(selected) && messages == old(messages)
      ensures draft == old(draft) && sending == old(sending)
    {
      if fetched.Some? && |fetched.value| > 0 {
        chats := fetched.value;
      } else {
        chats := MockChats;
      }
      loading := false;
    }

    /**
     * Opening a chat. A new `selectedChat` reruns the `[selectedChat]` effect,
     * whose `loadMessages` then replaces the messages; selecting the chat
     * already open leaves the state as it was, so the effect does not run.
     */
    method SelectChat(chat: Option<Chat>)
      modifies this
      ensures selected == chat && chats == old(chats)
      ensures messages == (if chat.Some? && chat != old(selected) then MockMessages else old(messages))
      ensures draft == old(draft) && loading == old(loading) && sending == old(sending)
    {
      var changed := chat != selected;
      selected := chat;
      if chat.Some? && changed {
        LoadMessages();
      }
    }

    /**
     * `loadMessages(id)`: the handler calls `api.messages.get`, which the api
     * module does not define, so the call throws and the demo messages load.
     */
    method LoadMessages()
      modifies this
      ensures messages == MockMessages && chats == old(chats) && selected == old(selected)
      ensures draft == old(draft) && loading == old(loading) && sending == old(sending)
    {
      messages := MockMessages;
    }

    method SetDraft(text: string)
      modifies this
      ensures draft == text && chats == old(chats) && selected == old(selected) && messages == old(messages)
      ensures loading == old(loading) && sending == old(sending)
    {
      draft := text;
    }

    /** `handleSendMessage` up to the request: a blank draft or no open chat does nothing. */
    method BeginSend() returns (snap: Option<SendSnapshot>)
      modifies this
      ensures JsText.Trim(old(draft)) == "" || old(selected).None? ==>
        snap.None? && sending == old(sending)
      ensures JsText.Trim(old(draft)) != "" && old(selected).Some? ==>
        snap == Some(SendSnapshot(old(selected).value, old(messages), old(draft))) && sending
      ensures chats == old(chats) && selected == old(selected) && messages == old(messages)
      ensures draft == old(draft) && loading == old(loading)
    {
      if JsText.Trim(draft) == "" || selected.None? {
        return None;
      }
      sending := true;
      snap := Some(SendSnapshot(selected.value, messages, draft));
    }

    /**
     * The rest of `handleSendMessage`: the request to `messages/send` carries
     * the chat id and the draft. Unlocking a locked chat sets a new
     * `selectedChat`, so the `[selectedChat]` effect reloads the messages and
     * the list the handler set, with the sent message, is replaced.
     */
    method FinishSend(snap: SendSnapshot, outcome: SendOutcome)
      modifies this
      ensures !sending && chats == old(chats) && loading == old(loading)
      ensures Appended(snap, outcome).None? ==>
        messages == old(messages) && draft == old(draft) && selected == old(selected)
      ensures Appended(snap, outcome).Some? ==>
        && messages == (if snap.chat.isLocked then MockMessages else snap.messages + [Appended(snap, outcome).value])
        && draft == ""
        && selected == (if snap.chat.isLocked then Some(snap.chat.(isLocked := false)) else old(selected))
    {
      var m := Appended(snap, outcome);
      if m.Some? {
        messages := snap.messages + [m.value];
        draft := "";
        if snap.chat.isLocked {
          selected := Some(snap.chat.(isLocked := false));
          LoadMessages();
        }
      }
      sending := false;
    }
  }

  /** The list a successful send sets ends with the sent draft, after the messages captured before the request. */
  lemma SentIsNewest(snap: SendSnapshot, outcome: SendOutcome)
    requires outcome.Threw? || outcome.success
    ensures var shown := snap.messages + [Appended(snap, outcome).value];
      |shown| == |snap.messages| + 1 && shown[|shown| - 1].text == snap.draft && shown[|shown| - 1].fromMe
      && shown[..|snap.messages|] == snap.messages
  {
  }
}
