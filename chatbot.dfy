/**
 * The support chatbot: a greeting per interface language with an English
 * fallback, a keyword-driven reply chosen by a fixed priority over the
 * lower-cased message, and the message log the conversation appends to.
 */
module Chatbot {
  import opened Wrappers
  import opened Text
  import opened LanguageProvider

  datatype Sender = BotSender | UserSender

  /** One chat bubble. The id comes from the clock (or is 1 for the greeting); timestamps are not modelled. */
  datatype Message = Message(id: int, text: string, sender: Sender)

  const EnglishGreeting := "Hello! How can I help you with your flight booking today?"
  const HindiGreeting := "नमस्ते! मैं आज आपकी उड़ान बुकिंग में कैसे मदद कर सकता हूं?"
  const UrduGreeting := "ہیلو! میں آج آپ کی پرواز کی بکنگ میں کیسے مدد کر سکتا ہوں؟"
  const TeluguGreeting := "హలో! నేను ఈరోజు మీ విమానం బుకింగ్లో ఎలా సహాయం చేయగలను?"

  /** The `greetings` record: the codes that have a greeting. */
  function GreetingFor(code: string): (r: Option<string>)
    ensures r.Some? <==> LanguageFromCode(code).Some?
  {
    if code == "en" then Some(EnglishGreeting)
    else if code == "hi" then Some(HindiGreeting)
    else if code == "ur" then Some(UrduGreeting)
    else if code == "te" then Some(TeluguGreeting)
    else None
  }

  /** `greetings[language] || greetings.en`: a code without a greeting gets the English one. */
  function Greeting(code: string): (r: string)
    ensures GreetingFor(code).Some? ==> r == GreetingFor(code).value
    ensures GreetingFor(code).None? ==> r == EnglishGreeting
  {
    match GreetingFor(code)
    case Some(g) => if g != "" then g else EnglishGreeting
    case None => EnglishGreeting
  }

  /** Each of the four interface languages has a greeting of its own, so none of them falls back to English. */
  lemma GreetingPerLanguage(l: Language)
    ensures GreetingFor(LanguageCode(l)).Some?
    ensures Greeting(LanguageCode(l)) == GreetingFor(LanguageCode(l)).value
    ensures l != En ==> Greeting(LanguageCode(l)) != EnglishGreeting
  {
    assert |EnglishGreeting| == 57 && |HindiGreeting| == 58 && |UrduGreeting| == 58 && |TeluguGreeting| == 54;
  }

  // ---------------------------------------------------------------------
  // Choosing the reply
  // ---------------------------------------------------------------------

  /** The five kinds of answer, in the order the keywords are tried. */
  datatype Topic = Cancellation | Baggage | CheckIn | Rebooking | General

  /** The first keyword group (in priority order) that the lower-cased text contains. */
  function TopicOf(text: string): (r: Topic)
    ensures r == Cancellation <==> Contains(ToLower(text), "cancel") || Contains(ToLower(text), "refund")
    ensures r == Baggage <==>
      && !Contains(ToLower(text), "cancel") && !Contains(ToLower(text), "refund")
      && (Contains(ToLower(text), "baggage") || Contains(ToLower(text), "luggage"))
    ensures r == CheckIn <==>
      && !Contains(ToLower(text), "cancel") && !Contains(ToLower(text), "refund")
      && !Contains(ToLower(text), "baggage") && !Contains(ToLower(text), "luggage")
      && Contains(ToLower(text), "check-in")
    ensures r == Rebooking <==>
      && !Contains(ToLower(text), "cancel") && !Contains(ToLower(text), "refund")
      && !Contains(ToLower(text), "baggage") && !Contains(ToLower(text), "luggage")
      && !Contains(ToLower(text), "check-in")
      && (Contains(ToLower(text), "change") || Contains(ToLower(text), "reschedule"))
    ensures r == General <==>
      && !Contains(ToLower(text), "cancel") && !Contains(ToLower(text), "refund")
      && !Contains(ToLower(text), "baggage") && !Contains(ToLower(text), "luggage")
      && !Contains(ToLower(text), "check-in")
      && !Contains(ToLower(text), "change") && !Contains(ToLower(text), "reschedule")
  {
    var lower := ToLower(text);
    if Contains(lower, "cancel") || Contains(lower, "refund") then Cancellation
    else if Contains(lower, "baggage") || Contains(lower, "luggage") then Baggage
    else if Contains(lower, "check-in") then CheckIn
    else if Contains(lower, "change") || Contains(lower, "reschedule") then Rebooking
    else General
  }

  const CancellationReply := "To cancel your booking or request a refund, please go to the 'Manage Bookings' section and enter your booking details. Depending on your fare type, fees may apply."
  const BaggageReply := "Baggage allowance varies based on your ticket type and destination. Economy tickets typically include one carry-on (7kg) with options to purchase checked baggage. Business class usually includes 2 checked bags (23kg each)."
  const CheckInReply := "Online check-in opens 48 hours before departure and closes 1 hour before the flight. You can check in through our website or mobile app."
  const RebookingReply := "To change your flight, go to the 'Manage Bookings' section on our website. Change fees may apply depending on your fare type."
  const GeneralReply := "Thank you for your message. For specific information about your booking, please visit the 'Manage Bookings' section or contact our customer support team."

  function ReplyText(t: Topic): string
  {
    match t
    case Cancellation => CancellationReply
    case Baggage => BaggageReply
    case CheckIn => CheckInReply
    case Rebooking => RebookingReply
    case General => GeneralReply
  }

  /** The bot's answer to a message: the answer of the topic the message selects, and of no other topic. */
  function Reply(text: string): (r: string)
    ensures forall t :: r == ReplyText(t) <==> t == TopicOf(text)
  {
    assert forall t1, t2 :: t1 != t2 ==> |ReplyText(t1)| != |ReplyText(t2)|;
    ReplyText(TopicOf(text))
  }

  /** The five answers are pairwise different, so the answer tells which keyword group matched. */
  lemma ReplyTextsDistinct(t1: Topic, t2: Topic)
    requires t1 != t2
    ensures ReplyText(t1) != ReplyText(t2)
  {
    assert |ReplyText(t1)| != |ReplyText(t2)|;
  }

  /** The reply depends only on the lower-cased text: case never matters. */
  lemma TopicIgnoresCase(text: string)
    ensures TopicOf(ToLower(text)) == TopicOf(text)
  {
    ToLowerIdempotent(text);
  }

  /** A keyword written in any case is found: an occurrence of `kw` puts its lower-case form in the lower-cased text. */
  lemma KeywordInAnyCase(text: string, kw: string)
    requires Contains(text, kw)
    ensures Contains(ToLower(text), ToLower(kw))
  {
    var i := ContainsWitness(text, kw);
    var before, after := text[..i], text[i + |kw|..];
    assert text == before + kw + after;
    ToLowerAppend(before + kw, after);
    ToLowerAppend(before, kw);
    ContainsAt(ToLower(kw), ToLower(kw), 0);
    ContainsInConcat(ToLower(before), ToLower(kw), ToLower(kw));
    ContainsInConcat(ToLower(before) + ToLower(kw), ToLower(after), ToLower(kw));
  }

  /** Any spelling of "cancel" or "refund" (CANCEL, Refund, ...) selects the cancellation answer, whatever else is said. */
  lemma CancellationInAnyCase(text: string, kw: string)
    requires ToLower(kw) == "cancel" || ToLower(kw) == "refund"
    requires Contains(text, kw)
    ensures TopicOf(text) == Cancellation
  {
    KeywordInAnyCase(text, kw);
  }

  /** Cancellation has the highest priority: more text on either side never changes that answer. */
  lemma CancellationSticks(text: string, more: string)
    requires TopicOf(text) == Cancellation
    ensures TopicOf(text + more) == Cancellation && TopicOf(more + text) == Cancellation
  {
    var lower := ToLower(text);
    ToLowerAppend(text, more);
    ToLowerAppend(more, text);
    var kw := if Contains(lower, "cancel") then "cancel" else "refund";
    ContainsInConcat(lower, ToLower(more), kw);
    ContainsInConcat(ToLower(more), lower, kw);
  }

  // ---------------------------------------------------------------------
  // The conversation
  // ---------------------------------------------------------------------

  /** A text with a character that is not whitespace: what is left non-empty by `trim`. */
  predicate HasVisibleChar(s: string)
  {
    exists i :: 0 <= i < |s| && !IsJsWhitespace(s[i])
  }

  /** A text that is not blank has a visible character. */
  lemma NotBlankIsVisible(s: string)
    requires !IsBlank(s)
    ensures HasVisibleChar(s)
  {
    BlankIffAllWhitespace(s);
  }

  /** Appending a text with a visible character keeps every queued text visible. */
  lemma AppendKeepsVisible(texts: seq<string>, s: string)
    requires forall i :: 0 <= i < |texts| ==> HasVisibleChar(texts[i])
    requires HasVisibleChar(s)
    ensures forall i :: 0 <= i < |texts + [s]| ==> HasVisibleChar((texts + [s])[i])
  {
    forall i | 0 <= i < |texts + [s]|
      ensures HasVisibleChar((texts + [s])[i])
    {
      if i < |texts| {
        assert (texts + [s])[i] == texts[i];
      }
    }
  }

  class ChatbotState {
    var messages: seq<Message>
    var input: string
    var isTyping: bool
    /** The texts sent whose reply timer has not fired yet, oldest first. */
    var pending: seq<string>

    /** Only non-blank texts ever wait for a reply. */
    ghost predicate Valid()
      reads this
    {
      forall i :: 0 <= i < |pending| ==> HasVisibleChar(pending[i])
    }

    /** Mounted in a language: the log holds the greeting alone. */
    constructor (code: string)
      ensures Valid()
      ensures messages == [Message(1, Greeting(code), BotSender)]
      ensures input == "" && !isTyping && pending == []
    {
      messages := [Message(1, Greeting(code), BotSender)];
      input := "";
      isTyping := false;
      pending := [];
    }

    /** The language changes: the log is replaced by the new greeting; replies already scheduled still arrive. */
    method ResetForLanguage(code: string)
      requires Valid()
      modifies this
      ensures Valid()
      ensures messages == [Message(1, Greeting(code), BotSender)]
      ensures input == old(input) && isTyping == old(isTyping) && pending == old(pending)
    {
      messages := [Message(1, Greeting(code), BotSender)];
    }

    /** The input box's `onChange`. */
    method SetInput(value: string)
      requires Valid()
      modifies this
      ensures Valid()
      ensures input == value
      ensures messages == old(messages) && isTyping == old(isTyping) && pending == old(pending)
    {
      input := value;
    }

    /**
     * `handleSend`: blank input changes nothing; otherwise the untrimmed
     * input is appended as a user message (its id read from the clock,
     * `now`), the box is cleared and the bot starts typing.
     */
    method Send(now: int)
      requires Valid()
      modifies this
      ensures Valid()
      ensures IsBlank(old(input)) ==>
        messages == old(messages) && input == old(input) && isTyping == old(isTyping) && pending == old(pending)
      ensures !IsBlank(old(input)) ==>
        && messages == old(messages) + [Message(now, old(input), UserSender)]
        && input == "" && isTyping
        && pending == old(pending) + [old(input)]
    {
      if IsBlank(input) {
        return;
      }
      NotBlankIsVisible(input);
      AppendKeepsVisible(pending, input);
      messages := messages + [Message(now, input, UserSender)];
      pending := pending + [input];
      input := "";
      isTyping := true;
    }

    /**
     * The oldest reply timer fires: its answer is appended as a bot message
     * and typing stops. The text it answers is never blank.
     */
    method DeliverReply(now: int)
      requires Valid() && pending != []
      modifies this
      ensures Valid()
      ensures HasVisibleChar(old(pending)[0])
      ensures messages == old(messages) + [Message(now, Reply(old(pending)[0]), BotSender)]
      ensures pending == old(pending)[1..]
      ensures !isTyping && input == old(input)
    {
      messages := messages + [Message(now, Reply(pending[0]), BotSender)];
      pending := pending[1..];
      isTyping := false;
    }
  }
}
