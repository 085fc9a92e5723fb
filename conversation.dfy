/** The conversation loop of ai_voice_assistant/main.py as a specification: one loop body is
    the function Turn, the loop is RunFrom.

    The two speech collaborators are data: `listen_for_audio` reads the next element of an
    input stream `audio` (an element is `None` when nothing was recognised; a stream that has
    run out behaves like a listen that timed out), and `speak` appends to the transcript
    `said`. */
module Conversation {
  import opened Wrappers
  import opened Text
  import opened IntentHandler

  const MaxFailedAttempts: nat := 3
  const MaxInteractions: nat := 5

  const ExitPhrases: seq<string> := ["goodbye", "bye", "exit", "quit", "nothing else", "that's it"]
  const NegativePhrases: seq<string> := ["no", "nope", "nothing", "that's all"]
  /** Intents after which the assistant expects the user to go on, so no follow-up is asked. */
  const ContinuingIntents: seq<string> := ["check_order_status", "product_inquiry", "contact_support"]

  const ConnectingMessage: string := "Connecting you to the assistant."
  const DefaultGreeting: string := "Hello! How can I help you today?"
  const DefaultListenFallback: string := "I'm sorry, I didn't quite catch that. Could you please say it again?"
  const DefaultFarewell: string := "Goodbye!"
  const DefaultFollowUpFarewell: string := "Alright. Goodbye!"
  const FollowUpPrompt: string := "Is there anything else I can help you with today?"
  const TroubleMessage: string := "I'm having trouble understanding you. Let's end the call for now. Please try again later."
  const LimitPrefix: string := "We've reached the maximum interaction limit for this session. "
  const StartupMessage: string := "System starting up."
  const CriticalMessage: string := "Critical error: Failed to load essential knowledge base. The assistant cannot start."
  const ShutdownMessage: string := "AI Voice Assistant shutting down. Thank you."

  /** Python truthiness of an optional string: present and not empty. */
  predicate NonEmpty(o: Option<string>) {
    o.Some? && o.value != []
  }

  /** One call of `listen_for_audio` at stream position `pos`. */
  function Listen(audio: seq<Option<string>>, pos: nat): Option<string> {
    if pos < |audio| then audio[pos] else None
  }

  function Greeting(kb: KnowledgeBase): string { kb.greeting.GetOr(DefaultGreeting) }
  /** The loop's own fallback for a failed listen (not the matcher's). */
  function ListenFallback(kb: KnowledgeBase): string { kb.fallback.GetOr(DefaultListenFallback) }
  /** `farewells.default`, with the default that differs between call sites. */
  function Farewell(kb: KnowledgeBase, default: string): string { kb.farewell.GetOr(default) }
  function LimitMessage(kb: KnowledgeBase): string { LimitPrefix + Farewell(kb, DefaultFarewell) }

  /** The loop's state: the three loop variables, the stream position, the transcript so far,
      and the results of the main-slot listens so far (`mains`, one per interaction). */
  datatype Session = Session(
    interactions: nat, failed: nat, active: bool,
    next: nat, said: seq<string>, mains: seq<Option<string>>)

  function Initial(kb: KnowledgeBase): Session {
    Session(0, 0, true, 0, [ConnectingMessage, Greeting(kb)], [])
  }

  /** Whether an utterance heard in the main slot leads to the follow-up prompt and listen. */
  predicate AsksFollowUp(kb: KnowledgeBase, input: Option<string>) {
    NonEmpty(input) && !ContainsAny(input.value, ExitPhrases) &&
    var r := RecognizeIntent(input.value, kb);
    NonEmpty(r.intent) && r.intent.value !in ContinuingIntents
  }

  /** One run of the loop body. */
  function Turn(kb: KnowledgeBase, audio: seq<Option<string>>, s: Session): (t: Session)
    ensures t.interactions == s.interactions + 1
    ensures t.mains == s.mains + [Listen(audio, s.next)]
    ensures s.said < t.said
    ensures t.failed == if NonEmpty(Listen(audio, s.next)) then 0 else s.failed + 1
    ensures t.next == s.next + (if AsksFollowUp(kb, Listen(audio, s.next)) then 2 else 1)
  {
    var n := s.interactions + 1;
    var input := Listen(audio, s.next);
    var mains := s.mains + [input];
    if NonEmpty(input) then
      var u := input.value;
      if ContainsAny(u, ExitPhrases) then
        Session(n, 0, false, s.next + 1, s.said + [Farewell(kb, DefaultFarewell)], mains)
      else
        var r := RecognizeIntent(u, kb);
        var reply := r.response.value;
        if NonEmpty(r.intent) && r.intent.value !in ContinuingIntents then
          var followUp := Listen(audio, s.next + 1);
          if NonEmpty(followUp) && ContainsAny(followUp.value, NegativePhrases) then
            Session(n, 0, false, s.next + 2,
                    s.said + [reply, FollowUpPrompt, Farewell(kb, DefaultFollowUpFarewell)], mains)
          else
            Session(n, 0, true, s.next + 2, s.said + [reply, FollowUpPrompt], mains)
        else
          Session(n, 0, true, s.next + 1, s.said + [reply], mains)
    else if s.failed + 1 >= MaxFailedAttempts then
      Session(n, s.failed + 1, false, s.next + 1, s.said + [TroubleMessage], mains)
    else
      Session(n, s.failed + 1, true, s.next + 1, s.said + [ListenFallback(kb)], mains)
  }

  /** `while active_call and interaction_count < max_interactions`, from state `s`. */
  function RunFrom(kb: KnowledgeBase, audio: seq<Option<string>>, s: Session): Session
    decreases MaxInteractions - s.interactions
  {
    if s.active && s.interactions < MaxInteractions then RunFrom(kb, audio, Turn(kb, audio, s))
    else s
  }

  /** The state in which the loop ends. */
  function Final(kb: KnowledgeBase, audio: seq<Option<string>>): Session {
    RunFrom(kb, audio, Initial(kb))
  }

  /** Everything `main_conversation_loop` speaks. */
  function Transcript(kb: KnowledgeBase, audio: seq<Option<string>>): seq<string> {
    var f := Final(kb, audio);
    f.said + (if f.interactions >= MaxInteractions && f.active then [LimitMessage(kb)] else [])
  }
}
