/** One chat thread with a store: sending a message from the input box, and the rule
    that decides above which messages a time stamp is shown. */
module Conversation {
  import opened JsText

  /** A chat message; `timestamp` is in milliseconds since the epoch. */
  datatype Message = Message(id: string, text: string, sender: string, timestamp: int, senderName: string)

  /** Time stamps are grouped: a gap of more than five minutes starts a new group. */
  const GroupGap := 300000

  function Abs(x: int): nat
  {
    if x < 0 then -x else x
  }

  /** `showTimestamp` in `renderMessage`: always above the first message; above any other
      one exactly when it is more than five minutes away, either way, from the message
      before it. */
  predicate ShowTimestamp(messages: seq<Message>, index: nat)
    requires index < |messages|
  {
    index == 0 || Abs(messages[index].timestamp - messages[index - 1].timestamp) > GroupGap
  }

  /** A gap of exactly five minutes stays in the same group; one millisecond more starts a
      new one, and so does a message stamped that much before its predecessor. */
  lemma FiveMinuteBoundary(m0: Message, m1: Message)
    ensures m1.timestamp == m0.timestamp + GroupGap ==> !ShowTimestamp([m0, m1], 1)
    ensures m1.timestamp == m0.timestamp + GroupGap + 1 ==> ShowTimestamp([m0, m1], 1)
    ensures m1.timestamp == m0.timestamp - GroupGap - 1 ==> ShowTimestamp([m0, m1], 1)
  {
  }

  /** Appending a message never changes whether an earlier message shows its time stamp. */
  lemma AppendKeepsEarlierStamps(messages: seq<Message>, m: Message, index: nat)
    requires index < |messages|
    ensures ShowTimestamp(messages + [m], index) == ShowTimestamp(messages, index)
  {
    if index > 0 {
      assert (messages + [m])[index] == messages[index] && (messages + [m])[index - 1] == messages[index - 1];
    }
  }

  /** The thread's state: its messages and the text in the input box. */
  class ConversationScreen {
    var messages: seq<Message>
    var newMessage: string

    constructor (initial: seq<Message>)
      ensures messages == initial && newMessage == ""
    {
      messages := initial;
      newMessage := "";
    }

    /** `onChangeText={setNewMessage}` */
    method SetNewMessage(text: string)
      modifies this
      ensures newMessage == text && messages == old(messages)
    {
      newMessage := text;
    }

    /** `sendMessage`: ignores a blank input; otherwise appends one message from the user
        with the trimmed text and clears the input. `id` and `now` stand for
        `Date.now().toString()` and `new Date()`. */
    method SendMessage(id: string, now: int) returns (sent: bool)
      modifies this
      ensures sent == !IsBlank(old(newMessage))
      ensures !sent ==> messages == old(messages) && newMessage == old(newMessage)
      ensures sent ==> messages == old(messages) + [Message(id, Trim(old(newMessage)), "user", now, "You")]
      ensures sent ==> newMessage == ""
    {
      if Trim(newMessage) == "" {
        return false;
      }
      var message := Message(id, Trim(newMessage), "user", now, "You");
      messages := messages + [message];
      newMessage := "";
      sent := true;
    }
  }

  /** A sent message's text is the typed text without surrounding white space: it is a
      slice of the input, not empty, and starts and ends with a non-space character. */
  lemma SentTextIsTrimmedInput(typed: string)
    requires !IsBlank(typed)
    ensures Trim(typed) != ""
    ensures !IsSpace(Trim(typed)[0]) && !IsSpace(Trim(typed)[|Trim(typed)| - 1])
    ensures exists i, j :: 0 <= i <= j <= |typed| && Trim(typed) == typed[i..j]
  {
    var i, j := TrimIsCore(typed);
    assert typed[i..j][0] == typed[i];
  }
}
