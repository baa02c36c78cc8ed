/**
 * The scripted chat assistant: a message history that starts with a
 * greeting and only grows, and a canned reply chosen by the first table
 * key, in table order, that occurs in the lower-cased user text.
 */
module Chatbot {
  import opened Wrappers
  import opened Text

  datatype Sender = User | Bot

  datatype Message = Message(sender: Sender, text: string)

  const Greeting := "Hi! I'm your Think Plus Education assistant. How can I help you today?"

  const CourseReply := "We offer comprehensive courses for CAT, IPMAT, CLAT, and other competitive exams. Each course includes video lectures, study materials, weekly tests, and personalized guidance."
  const FeeReply := "Our courses range from ₹14,999 to ₹39,999 depending on the program. We also offer combo packages at discounted rates. Would you like details on a specific course?"
  const MaterialsReply := "All enrolled students get access to comprehensive study materials including video lectures, PDF notes, practice questions, and mock tests. Materials are available 24/7 on our platform."
  const SupportReply := "You can reach our support team at support@thinkplus.edu or call us at +91-XXXX-XXXXXX. We're available Monday to Saturday, 9 AM to 6 PM."
  const DefaultReply := "Thank you for your question! For detailed information, please contact our support team or explore our courses section. Is there anything specific I can help you with?"

  /**
   * The response table in the order its entries are enumerated, the
   * "default" entry included: it is scanned like the others.
   */
  const Responses: seq<(string, string)> := [
    ("course information", CourseReply),
    ("fee structure", FeeReply),
    ("study materials", MaterialsReply),
    ("contact support", SupportReply),
    ("default", DefaultReply)
  ]

  const QuickReplies: seq<string> := ["Course information", "Fee structure", "Study materials", "Contact support"]

  /** The first entry at or after `from` whose key occurs in `text`. */
  function FirstMatchFrom(table: seq<(string, string)>, text: string, from: nat): (r: Option<nat>)
    requires from <= |table|
    ensures r.Some? ==> from <= r.value < |table| && Contains(text, table[r.value].0)
    ensures r.Some? ==> forall j :: from <= j < r.value ==> !Contains(text, table[j].0)
    ensures r.None? ==> forall j :: from <= j < |table| ==> !Contains(text, table[j].0)
    decreases |table| - from
  {
    if from == |table| then None
    else if Contains(text, table[from].0) then Some(from)
    else FirstMatchFrom(table, text, from + 1)
  }

  /** The reply to a user message: the first matching entry's text, else the default. */
  function Reply(input: string): (r: string)
    ensures exists i :: 0 <= i < |Responses| && r == Responses[i].1
    ensures forall i :: 0 <= i < |Responses| ==>
      (Contains(ToLower(input), Responses[i].0) && (forall j :: 0 <= j < i ==> !Contains(ToLower(input), Responses[j].0)))
      ==> r == Responses[i].1
    ensures (forall i :: 0 <= i < |Responses| ==> !Contains(ToLower(input), Responses[i].0)) ==> r == DefaultReply
  {
    match FirstMatchFrom(Responses, ToLower(input), 0)
    case Some(i) => Responses[i].1
    case None => assert Responses[4].1 == DefaultReply; DefaultReply
  }

  /** The scan of the response table, stopping at the first key found. */
  method FindReply(input: string) returns (responseText: string)
    ensures responseText == Reply(input)
  {
    var lowerInput := ToLower(input);
    responseText := DefaultReply;
    var i := 0;
    while i < |Responses|
      invariant 0 <= i <= |Responses|
      invariant responseText == DefaultReply
      invariant FirstMatchFrom(Responses, lowerInput, 0) == FirstMatchFrom(Responses, lowerInput, i)
    {
      if Contains(lowerInput, Responses[i].0) {
        responseText := Responses[i].1;
        break;
      }
      i := i + 1;
    }
  }

  /** Every key is lower case, so matching ignores the case of the user's letters. */
  lemma KeysAreLowerCase()
    ensures forall i :: 0 <= i < |Responses| ==> IsLower(Responses[i].0)
  {
  }

  lemma ToLowerTwice(s: string)
    ensures ToLower(ToLower(s)) == ToLower(s)
  {
    ToLowerIsLower(s);
  }

  /** Changing the case of ASCII letters in the input does not change the reply. */
  lemma ReplyIgnoresCase(input: string)
    ensures Reply(ToLower(input)) == Reply(input)
  {
    ToLowerTwice(input);
  }

  /** Table order breaks ties: any input naming course information gets the course reply. */
  lemma CourseInformationWins(input: string)
    requires Contains(ToLower(input), "course information")
    ensures Reply(input) == CourseReply
  {
  }

  /** The default text comes back exactly when no topic key occurs (matching "default" gives it too). */
  lemma DefaultIffNoTopic(input: string)
    ensures Reply(input) == DefaultReply <==> forall j :: 0 <= j < 4 ==> !Contains(ToLower(input), Responses[j].0)
  {
    var lower := ToLower(input);
    var m := FirstMatchFrom(Responses, lower, 0);
    if m.Some? && m.value < 4 {
      assert Responses[m.value].1 != DefaultReply by {
        assert |CourseReply| != |DefaultReply| && |FeeReply| != |DefaultReply|;
        assert |MaterialsReply| != |DefaultReply| && |SupportReply| != |DefaultReply|;
      }
    }
  }

  lemma OccursAtStart(s: string)
    ensures Contains(s, s)
  {
    assert OccursAt(s, s, 0);
  }

  /** `key` is not found in `s` when no position of `s` holds key's first character with room to spare. */
  lemma NotContainsByFirstChar(s: string, key: string)
    requires |key| > 0
    requires forall i :: 0 <= i <= |s| - |key| ==> s[i] != key[0]
    ensures !Contains(s, key)
  {
    forall i | 0 <= i <= |s| - |key| ensures !OccursAt(s, key, i) {
      assert s[i..i + |key|][0] == s[i];
    }
  }

  lemma LowerQuickReply(i: nat)
    requires i < |QuickReplies|
    ensures ToLower(QuickReplies[i]) == Responses[i].0
  {
    var q, k := QuickReplies[i], Responses[i].0;
    assert |ToLower(q)| == |k|;
    assert forall j :: 0 <= j < |k| ==> ToLower(q)[j] == k[j];
  }

  /** No topic key contains an earlier topic key. */
  lemma EarlierKeysAbsent()
    ensures forall i, j :: 0 <= j < i < 4 ==> !Contains(Responses[i].0, Responses[j].0)
  {
    var keys := seq(4, j requires 0 <= j < 4 => Responses[j].0);
    NotContainsByFirstChar(keys[1], keys[0]);
    NotContainsByFirstChar(keys[2], keys[0]);
    NotContainsByFirstChar(keys[2], keys[1]);
    NotContainsByFirstChar(keys[3], keys[0]);
    NotContainsByFirstChar(keys[3], keys[1]);
    NotContainsByFirstChar(keys[3], keys[2]);
  }

  /** Each quick reply, once sent, is answered with its own topic's text. */
  lemma QuickRepliesGetTheirTopic()
    ensures forall i :: 0 <= i < |QuickReplies| ==> Reply(QuickReplies[i]) == Responses[i].1
  {
    EarlierKeysAbsent();
    forall i | 0 <= i < |QuickReplies| ensures Reply(QuickReplies[i]) == Responses[i].1 {
      var key := Responses[i].0;
      LowerQuickReply(i);
      OccursAtStart(key);
      var m := FirstMatchFrom(Responses, key, 0);
      assert m.Some?;
      assert m.value == i;
    }
  }

  function CountFrom(messages: seq<Message>, sender: Sender): (r: nat)
    ensures r <= |messages|
  {
    if messages == [] then 0
    else CountFrom(messages[..|messages| - 1], sender) + (if messages[|messages| - 1].sender == sender then 1 else 0)
  }

  class ChatWindow {
    var messages: seq<Message>
    var input: string
    /** The texts of sent messages whose delayed reply has not yet been posted, oldest first. */
    var pending: seq<string>

    /**
     * The history opens with the greeting, and every user message has
     * exactly one bot reply, either posted or still pending.
     */
    ghost predicate Valid()
      reads this
    {
      && |messages| >= 1
      && messages[0] == Message(Bot, Greeting)
      && CountFrom(messages, User) + 1 == CountFrom(messages, Bot) + |pending|
    }

    /** Quick replies are offered only while the greeting is the whole history. */
    function ShowQuickReplies(): (r: bool)
      reads this
      requires Valid()
      ensures r <==> messages == [Message(Bot, Greeting)]
    {
      |messages| == 1
    }

    constructor ()
      ensures Valid() && messages == [Message(Bot, Greeting)] && input == "" && pending == []
      ensures ShowQuickReplies()
    {
      messages := [Message(Bot, Greeting)];
      input := "";
      pending := [];
    }

    /** Typing into the input box. */
    method SetInput(text: string)
      requires Valid()
      modifies this`input
      ensures Valid() && input == text
    {
      input := text;
    }

    /** handleQuickReply: fills the input box and sends nothing. */
    method QuickReply(reply: string)
      requires Valid() && ShowQuickReplies()
      modifies this`input
      ensures Valid() && input == reply
    {
      input := reply;
    }

    /**
     * handleSend: a blank input changes nothing; otherwise the raw input
     * is appended as a user message, the box is cleared, and a reply to
     * that text is scheduled.
     */
    method Send() returns (sent: bool)
      requires Valid()
      modifies this
      ensures Valid()
      ensures sent <==> !IsBlank(old(input))
      ensures !sent ==> messages == old(messages) && input == old(input) && pending == old(pending)
      ensures sent ==> messages == old(messages) + [Message(User, old(input))]
      ensures sent ==> input == "" && pending == old(pending) + [old(input)]
      ensures sent ==> !ShowQuickReplies()
    {
      TrimEmptyIffBlank(input);
      if Trim(input) == "" {
        return false;
      }
      var m := Message(User, input);
      assert (messages + [m])[..|messages + [m]| - 1] == messages;
      messages := messages + [m];
      pending := pending + [input];
      input := "";
      sent := true;
    }

    /** The reply timer fires: the oldest pending text's reply is posted as a bot message. */
    method DeliverReply()
      requires Valid() && pending != []
      modifies this`messages, this`pending
      ensures Valid()
      ensures messages == old(messages) + [Message(Bot, Reply(old(pending)[0]))]
      ensures pending == old(pending)[1..]
    {
      var responseText := FindReply(pending[0]);
      var m := Message(Bot, responseText);
      assert (messages + [m])[..|messages + [m]| - 1] == messages;
      messages := messages + [m];
      pending := pending[1..];
    }
  }
}
