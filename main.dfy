/** The imperative conversation loop and the entry point (ai_voice_assistant/main.py),
    each proved against the specification functions of module Conversation. */
module Assistant {
  import opened Wrappers
  import opened Text
  import opened IntentHandler
  import opened Conversation
  import opened ConversationProperties

  /** `main_conversation_loop(knowledge_base)`: returns what it speaks and how many
      stream elements it consumed. */
  method ConversationLoop(kb: KnowledgeBase, audio: seq<Option<string>>)
    returns (said: seq<string>, consumed: nat)
    ensures said == Transcript(kb, audio)
    ensures consumed == Final(kb, audio).next
    ensures consumed <= 2 * MaxInteractions
    ensures |said| > 2 && said[..2] == [ConnectingMessage, Greeting(kb)]
  {
    var fallbackResponse := kb.fallback.GetOr(DefaultListenFallback);
    var failedAttempts: nat := 0;
    said := [ConnectingMessage];
    said := said + [kb.greeting.GetOr(DefaultGreeting)];
    var activeCall := true;
    var interactionCount: nat := 0;
    consumed := 0;
    ghost var mains: seq<Option<string>> := [];
    assert Session(interactionCount, failedAttempts, activeCall, consumed, said, mains) == Initial(kb);

    while activeCall && interactionCount < MaxInteractions
      invariant interactionCount <= MaxInteractions
      invariant RunFrom(kb, audio, Session(interactionCount, failedAttempts, activeCall, consumed, said, mains))
             == Final(kb, audio)
      decreases MaxInteractions - interactionCount
    {
      ghost var before := Session(interactionCount, failedAttempts, activeCall, consumed, said, mains);
      interactionCount := interactionCount + 1;
      var userInput := Listen(audio, consumed);
      consumed := consumed + 1;
      mains := mains + [userInput];

      if NonEmpty(userInput) {
        failedAttempts := 0;
        if ContainsAny(userInput.value, ExitPhrases) {
          said := said + [kb.farewell.GetOr(DefaultFarewell)];
          activeCall := false;
          assert Session(interactionCount, failedAttempts, activeCall, consumed, said, mains)
              == Turn(kb, audio, before);
          continue;
        }
        var recognition := RecognizeIntent(userInput.value, kb);
        if NonEmpty(recognition.intent) {
          said := said + [recognition.response.value];
          if recognition.intent.value !in ContinuingIntents {
            said := said + [FollowUpPrompt];
            var followUp := Listen(audio, consumed);
            consumed := consumed + 1;
            if NonEmpty(followUp) && ContainsAny(followUp.value, NegativePhrases) {
              said := said + [kb.farewell.GetOr(DefaultFollowUpFarewell)];
              activeCall := false;
            }
          }
        } else {
          said := said + [recognition.response.value];
        }
      } else {
        failedAttempts := failedAttempts + 1;
        if failedAttempts >= MaxFailedAttempts {
          said := said + [TroubleMessage];
          activeCall := false;
        } else {
          said := said + [fallbackResponse];
        }
      }
      assert Session(interactionCount, failedAttempts, activeCall, consumed, said, mains)
          == Turn(kb, audio, before);

      if !activeCall {
        break;
      }
    }

    if interactionCount >= MaxInteractions && activeCall {
      said := said + [LimitPrefix + kb.farewell.GetOr(DefaultFarewell)];
    }
    assert said == Transcript(kb, audio) && consumed == Final(kb, audio).next;
    SessionBounds(kb, audio);
    SessionEnding(kb, audio);
  }

  /** `main()` after the speech engine is set up: `loaded` is the knowledge base as loaded,
      `None` standing for the empty dictionary the loader returns when it fails. */
  method RunAssistant(loaded: Option<KnowledgeBase>, audio: seq<Option<string>>)
    returns (said: seq<string>)
    ensures loaded.None? ==> said == [StartupMessage, CriticalMessage]
    ensures loaded.Some? ==> said == [StartupMessage] + Transcript(loaded.value, audio) + [ShutdownMessage]
    ensures loaded.Some? ==> |said| > 4
    ensures loaded.Some? ==> said[..3] == [StartupMessage, ConnectingMessage, Greeting(loaded.value)]
    ensures said[|said| - 1] == if loaded.None? then CriticalMessage else ShutdownMessage
  {
    said := [StartupMessage];
    if loaded.None? {
      said := said + [CriticalMessage];
      return;
    }
    var spoken, _ := ConversationLoop(loaded.value, audio);
    assert (said + spoken)[..3] == [StartupMessage] + spoken[..2];
    said := said + spoken + [ShutdownMessage];
  }
}
