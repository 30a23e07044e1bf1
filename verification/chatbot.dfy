/** The keyword responder of the chat view (src/components/Chatbot.tsx):
    `processMessage` and the message log kept by the voice handler. */
module Chatbot {
  import opened Text

  /** The branch of the responder that fires. */
  datatype Intent = Greeting | Help | Time | Interesting | Weather | Fallback

  datatype Message = Message(text: string, isUser: bool)

  const GreetingReply := "Hello! How can I help you today?"
  const HelpReply := "I can help you with image recognition, navigation, and general assistance. What would you like to do?"
  const TimePrefix := "The current time is "
  const InterestingReply := "I am not trained yet to help you with such things but i will be availble very soon with large amount of data to help you with every complex problem. Hope you will consider this time"
  const WeatherReply := "I apologize, but I currently don't have access to weather information. Would you like me to help you with something else?"
  const FallbackReply := "I'm not sure how to help with that. Would you like me to describe your surroundings using the camera?"

  predicate Greets(s: string) { Contains(s, "hello") || Contains(s, "hi") }
  predicate AsksHelp(s: string) { Contains(s, "help") || Contains(s, "what can you do") }
  predicate AsksTime(s: string)
  {
    Contains(s, "what is the current time right now") || Contains(s, "can you tell me what time it is")
  }
  predicate AsksInteresting(s: string)
  {
    Contains(s, "can you do something intresting") || Contains(s, "what else can you do")
  }
  predicate AsksWeather(s: string)
  {
    Contains(s, "how is todays weather") || Contains(s, "what is the weather today")
  }

  /** The if/else-if chain of `processMessage` on the lower-cased text: the
      first test that holds decides, in the order greeting, help, time,
      "interesting", weather, and the fallback when none holds. */
  function Classify(lower: string): (i: Intent)
    ensures i == Greeting <==> Greets(lower)
    ensures i == Help <==> !Greets(lower) && AsksHelp(lower)
    ensures i == Time <==> !Greets(lower) && !AsksHelp(lower) && AsksTime(lower)
    ensures i == Interesting <==>
      !Greets(lower) && !AsksHelp(lower) && !AsksTime(lower) && AsksInteresting(lower)
    ensures i == Weather <==>
      !Greets(lower) && !AsksHelp(lower) && !AsksTime(lower) && !AsksInteresting(lower)
      && AsksWeather(lower)
  {
    if Greets(lower) then Greeting
    else if AsksHelp(lower) then Help
    else if AsksTime(lower) then Time
    else if AsksInteresting(lower) then Interesting
    else if AsksWeather(lower) then Weather
    else Fallback
  }

  /** The canned reply of each branch; `time` is the clock's
      `toLocaleTimeString()` at the moment of the reply. */
  function Reply(intent: Intent, time: string): (r: string)
    ensures |r| > 0
  {
    match intent
    case Greeting => GreetingReply
    case Help => HelpReply
    case Time => TimePrefix + time
    case Interesting => InterestingReply
    case Weather => WeatherReply
    case Fallback => FallbackReply
  }

  /** `processMessage(text)`. */
  function ProcessMessage(text: string, time: string): (r: string)
    ensures |r| > 0
  {
    Reply(Classify(ToLower(text)), time)
  }

  /** The reply depends only on the lower-cased text. */
  lemma ProcessMessageIgnoresCase(a: string, b: string, time: string)
    requires SameUpToCase(a, b)
    ensures ProcessMessage(a, time) == ProcessMessage(b, time)
  {
    SameUpToCaseLowerEqual(a, b);
  }

  lemma ProcessMessageOfLowerCase(text: string, time: string)
    ensures ProcessMessage(ToLower(text), time) == ProcessMessage(text, time)
  {
    ToLowerIdempotent(text);
  }

  /** Any message containing "hi" or "hello", in any letter case, is greeted. */
  lemma HiIsGreeted(text: string, time: string)
    requires Contains(ToLower(text), "hi") || Contains(ToLower(text), "hello")
    ensures ProcessMessage(text, time) == GreetingReply
  {
  }

  /** "something" contains "hi", so the first phrase of the fourth branch is
      always greeted instead: that branch fires only through "what else can
      you do". */
  lemma SomethingInterestingIsGreeted(text: string, time: string)
    requires Contains(ToLower(text), "can you do something intresting")
    ensures ProcessMessage(text, time) == GreetingReply
    ensures Classify(ToLower(text)) != Interesting
  {
    var phrase := "can you do something intresting";
    assert phrase == "can you do somet" + "hi" + "ng intresting";
    OccurrenceIsContained("hi", "hi", 0);
    ContainsInContext("can you do somet", "hi", "ng intresting", "hi");
    ContainsTransitive(ToLower(text), phrase, "hi");
  }

  /** The first phrase of the fourth branch is already in lower case. */
  lemma InterestingPhraseIsLowerCase()
    ensures ToLower("can you do something intresting") == "can you do something intresting"
  {
    var phrase := "can you do something intresting";
    assert forall i :: 0 <= i < |phrase| ==> !IsUpper(phrase[i]);
    ToLowerFixesLower(phrase);
  }

  /** That phrase, in any letter case, is greeted. */
  lemma InterestingPhraseIsGreeted(text: string, time: string)
    requires ToLower(text) == "can you do something intresting"
    ensures ProcessMessage(text, time) == GreetingReply
  {
    OccurrenceIsContained(ToLower(text), ToLower(text), 0);
    SomethingInterestingIsGreeted(text, time);
  }

  /** The exact phrase is greeted. */
  lemma ExactInterestingPhraseIsGreeted(time: string)
    ensures ProcessMessage("can you do something intresting", time) == GreetingReply
  {
    InterestingPhraseIsLowerCase();
    InterestingPhraseIsGreeted("can you do something intresting", time);
  }

  /** The time branch answers with the supplied clock reading. */
  lemma TimeReply(text: string, time: string)
    requires !Greets(ToLower(text)) && !AsksHelp(ToLower(text)) && AsksTime(ToLower(text))
    ensures ProcessMessage(text, time) == "The current time is " + time
  {
  }

  /** A message with none of the keywords or phrases gets the camera suggestion. */
  lemma NoKeywordFallback(text: string, time: string)
    requires var s := ToLower(text);
      !Greets(s) && !AsksHelp(s) && !AsksTime(s) && !AsksInteresting(s) && !AsksWeather(s)
    ensures ProcessMessage(text, time) ==
      "I'm not sure how to help with that. Would you like me to describe your surroundings using the camera?"
  {
  }

  /** The chat view's state: the message log, the listening flag and the
      utterances handed to speech synthesis (queued, never cancelled). */
  class ChatSession {
    var messages: seq<Message>
    var isListening: bool
    var speechQueue: seq<string>
    /** The clock reading each exchange was answered with. */
    ghost var clock: seq<string>

    /** The log is a list of exchanges: a user message followed by the reply
        `processMessage` gave it; every reply was also spoken, in order. */
    ghost predicate Valid()
      reads this
    {
      && |messages| == 2 * |clock|
      && |speechQueue| == |clock|
      && forall k :: 0 <= k < |clock| ==>
           && messages[2 * k].isUser
           && messages[2 * k + 1] == Message(ProcessMessage(messages[2 * k].text, clock[k]), false)
           && speechQueue[k] == messages[2 * k + 1].text
    }

    constructor ()
      ensures Valid()
      ensures messages == [] && !isListening && speechQueue == []
    {
      messages, isListening, speechQueue := [], false, [];
      clock := [];
    }

    /** `handleVoiceInput`: a recognition session starts. */
    method StartListening()
      requires Valid()
      modifies this`isListening
      ensures Valid()
      ensures isListening
    {
      isListening := true;
    }

    /** The recognition result: log the transcript, then (the 500 ms timeout
        taken as immediate) log and speak the reply. Earlier messages stay. */
    method OnResult(transcript: string, time: string)
      requires Valid()
      modifies this`messages, this`speechQueue, this`clock
      ensures Valid()
      ensures messages == old(messages)
        + [Message(transcript, true), Message(ProcessMessage(transcript, time), false)]
      ensures speechQueue == old(speechQueue) + [ProcessMessage(transcript, time)]
    {
      messages := messages + [Message(transcript, true)];
      var response := ProcessMessage(transcript, time);
      messages := messages + [Message(response, false)];
      speechQueue := speechQueue + [response];
      clock := clock + [time];
      assert forall k :: 0 <= k < |clock| - 1 ==>
        messages[2 * k] == old(messages)[2 * k] && messages[2 * k + 1] == old(messages)[2 * k + 1];
    }

    /** The recognition session ends. */
    method OnEnd()
      requires Valid()
      modifies this`isListening
      ensures Valid()
      ensures !isListening
    {
      isListening := false;
    }
  }
}
