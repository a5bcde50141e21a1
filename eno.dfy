/**
 * The floating "Eno" chat assistant: a launcher button, a transcript that
 * starts with a welcome message, and three suggested questions, each
 * answered after a short delay by a canned bot response.
 */
module Eno {
  import opened Wrappers

  datatype Sender = User | Bot

  /** A transcript entry; its id and timestamp are not modelled. */
  datatype Message = Message(text: string, sender: Sender)

  /** A suggested question: the response key and the text shown and sent. */
  datatype PredefinedQuestion = PredefinedQuestion(id: string, text: string)

  const Welcome := Message("Hi! I'm Eno. How can I help you today?", Bot)

  const SecurityQuestion := PredefinedQuestion("security", "How does Eno protect my data?")
  const VirtualCardQuestion := PredefinedQuestion("virtual_card", "What are virtual card numbers?")
  const AlertsQuestion := PredefinedQuestion("alerts", "Show me recent alerts")

  const PredefinedQuestions := [SecurityQuestion, VirtualCardQuestion, AlertsQuestion]

  const SecurityResponse := "I monitor your accounts 24/7 using machine learning to detect unusual activity. If I see something suspicious, I'll alert you immediately via push notification or text."
  const VirtualCardResponse := "Virtual card numbers allow you to shop online without exposing your actual credit card details. I can generate a unique number for each merchant to keep your real account safe."
  const AlertsResponse := "I've noticed a recurring charge that's higher than usual this month. Would you like me to investigate?"
  const DefaultResponse := "I'm Eno, Capital One's intelligent assistant. I can help you manage your money, track spending, and keep your account secure. Select a topic below to learn more."

  const BotResponses: map<string, string> := map[
    "security" := SecurityResponse,
    "virtual_card" := VirtualCardResponse,
    "alerts" := AlertsResponse,
    "default" := DefaultResponse
  ]

  /**
   * The reply to question `questionId`: its entry in the response table when
   * there is one and it is not empty (an empty string is falsy), otherwise
   * the default response.
   */
  function ResponseText(questionId: string): (r: string)
    ensures r != ""
    ensures r in BotResponses.Values
    ensures questionId in BotResponses && BotResponses[questionId] != "" ==> r == BotResponses[questionId]
    ensures questionId !in BotResponses ==> r == DefaultResponse
  {
    assert BotResponses["default"] == DefaultResponse;
    if questionId in BotResponses && BotResponses[questionId] != "" then BotResponses[questionId]
    else DefaultResponse
  }

  /**
   * Every suggested question has its own entry, so none of them falls back
   * to the default response.
   */
  lemma PredefinedQuestionsAnswered()
    ensures forall q | q in PredefinedQuestions ::
      q.id in BotResponses && ResponseText(q.id) == BotResponses[q.id] && ResponseText(q.id) != DefaultResponse
  {
    assert BotResponses["security"] == SecurityResponse;
    assert BotResponses["virtual_card"] == VirtualCardResponse;
    assert BotResponses["alerts"] == AlertsResponse;
    assert |DefaultResponse| == 161;
    assert |SecurityResponse| == 168 && |VirtualCardResponse| == 176 && |AlertsResponse| == 102;
  }

  /** Whose turn a transcript position is: bot at even positions, user at odd ones. */
  function SenderAt(k: nat): Sender
  {
    if k % 2 == 0 then Bot else User
  }

  class EnoAssistant {
    var isOpen: bool
    var messages: seq<Message>
    var isTyping: bool
    /** The reply the pending 1.5-second timer will post, if one is pending. */
    var pendingReply: Option<string>
    /** The suggested questions asked so far, in order. */
    ghost var asked: seq<PredefinedQuestion>

    /**
     * The transcript is the welcome message followed by one user message per
     * question asked, each followed by the bot's answer to it, except that
     * the newest question is still unanswered exactly while Eno is typing.
     */
    ghost predicate Valid()
      reads this
    {
      && |messages| == 2 * |asked| + (if isTyping then 0 else 1)
      && |messages| >= 1 && messages[0] == Welcome
      && (forall k | 0 <= k < |asked| ::
            && messages[2 * k + 1] == Message(asked[k].text, User)
            && (2 * k + 2 < |messages| ==> messages[2 * k + 2] == Message(ResponseText(asked[k].id), Bot)))
      && (isTyping <==> pendingReply.Some?)
      && (isTyping ==> pendingReply == Some(ResponseText(asked[|asked| - 1].id)))
    }

    constructor ()
      ensures Valid()
      ensures !isOpen && !isTyping && messages == [Welcome] && asked == []
    {
      isOpen := false;
      messages := [Welcome];
      isTyping := false;
      pendingReply := None;
      asked := [];
    }

    /**
     * The launcher button. It only ever opens the window: once open, the
     * window stays open although the button then shows a close icon.
     */
    method ClickLauncher()
      requires Valid()
      modifies this
      ensures Valid() && isOpen
      ensures messages == old(messages) && isTyping == old(isTyping)
      ensures pendingReply == old(pendingReply) && asked == old(asked)
    {
      isOpen := true;
    }

    /**
     * A click on a suggested question (the buttons exist only in the open
     * window and are disabled while Eno is typing): the question text is
     * appended as a user message and the answer is scheduled.
     */
    method AskQuestion(q: PredefinedQuestion)
      requires Valid() && isOpen && !isTyping && q in PredefinedQuestions
      modifies this
      ensures Valid()
      ensures messages == old(messages) + [Message(q.text, User)]
      ensures isTyping && pendingReply == Some(ResponseText(q.id))
      ensures asked == old(asked) + [q] && isOpen
    {
      messages := messages + [Message(q.text, User)];
      isTyping := true;
      pendingReply := Some(ResponseText(q.id));
      asked := asked + [q];
    }

    /** The delayed reply: the scheduled answer is appended as a bot message. */
    method DeliverReply()
      requires Valid() && isTyping
      modifies this
      ensures Valid()
      ensures messages == old(messages) + [Message(old(pendingReply).value, Bot)]
      ensures !isTyping && pendingReply == None
      ensures asked == old(asked) && isOpen == old(isOpen)
    {
      messages := messages + [Message(pendingReply.value, Bot)];
      isTyping := false;
      pendingReply := None;
    }
  }

  /**
   * Because questions are disabled while a reply is pending, bot and user
   * messages strictly alternate, starting with the bot's welcome.
   */
  lemma {:induction false} SendersAlternate(eno: EnoAssistant)
    requires eno.Valid()
    ensures forall k | 0 <= k < |eno.messages| :: eno.messages[k].sender == SenderAt(k)
  {
    forall k | 0 <= k < |eno.messages|
      ensures eno.messages[k].sender == SenderAt(k)
    {
      if k > 0 {
        var h := Halve(k);
        if k % 2 == 1 {
          AskedAt(eno, h);
        } else {
          AskedAt(eno, h - 1);
        }
      }
    }
  }

  /** k is twice its half, plus its parity. */
  lemma Halve(k: nat) returns (h: nat)
    ensures k == 2 * h + k % 2
  {
    h := k / 2;
  }

  /** The j-th question sits right after the j-th answer (or the welcome). */
  lemma AskedAt(eno: EnoAssistant, j: int)
    requires eno.Valid() && 0 <= j < |eno.asked|
    ensures eno.messages[2 * j + 1].sender == User
    ensures 2 * j + 2 < |eno.messages| ==> eno.messages[2 * j + 2].sender == Bot
  {
    var q := eno.asked[j];
  }

  /** While Eno is typing the last message is the user's unanswered question. */
  lemma AtMostOnePendingReply(eno: EnoAssistant)
    requires eno.Valid()
    ensures eno.isTyping ==> eno.messages[|eno.messages| - 1].sender == User
    ensures !eno.isTyping ==> eno.messages[|eno.messages| - 1].sender == Bot
  {
    SendersAlternate(eno);
  }
}
