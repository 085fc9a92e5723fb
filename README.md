# Voice assistant: intent matching and the conversation loop

This project models the two pieces of sequential logic of a small voice-driven
customer-service assistant and proves properties of them in Dafny.

- **Keyword intent matcher** (`recognize_intent`). It takes an utterance and a knowledge base and
  returns an intent key and a response. The knowledge base's `intents` object is an ordered
  sequence of `(key, Entry)` pairs, because Python dicts keep document order and the tie-break
  depends on it. The first intent in that order whose keyword, lower-cased, occurs in the
  lower-cased utterance wins. An empty utterance gives `(None, None)`. A miss gives `(None, fallback)`.
- **Conversation loop** (`main_conversation_loop`) and the start-up and shutdown decisions of `main`.
  The loop runs at most five interactions. It stops after three failed listens in a row, on an
  exit phrase, or on a negative reply to the "anything else?" prompt.

The speech collaborators are data. `listen_for_audio` reads the next element of the input
stream `audio: seq<Option<string>>`. `None` means nothing was recognised, and a stream that has
run out behaves like a listen that timed out. `speak` appends to the transcript `said: seq<string>`.

Files:

- `wrappers.dfy`: `Option`.
- `text.dfy`: ASCII `Lower`, substring containment `Contains` with its offset-based
  characterisation, and `ContainsAny`, which models `any(p in s for p in phrases)`.
- `intent_handler.dfy`: the knowledge-base data model, `RecognizeIntent` and its lemmas.
- `conversation.dfy`: the loop as a specification. `Turn` is one loop body, `RunFrom` the
  `while` loop and `Transcript` everything the loop speaks.
- `conversation_properties.dfy`: the loop invariant and the lemmas about endings, bounds and
  the step rules.
- `main.dfy`: the imperative `ConversationLoop` method, with the source's loop variables,
  `continue` and `break`, proved equal to the specification. `RunAssistant` models `main`.

Modelling decisions:

- Python truthiness:
  - `if user_input` and `follow_up_input and ...` treat an empty string like `None`.
  - `if intent_key` treats an intent whose key is `""` as unrecognised. `main_conversation_loop`
    then speaks its response and asks no follow-up, and the model does the same.
  - All three are the predicate `NonEmpty`.
- `main`'s `if not knowledge_base` is modelled by `Option<KnowledgeBase>`:
  - `None` is the empty dict, which the loader returns on failure or reads from a `{}` document.
  - `Some(kb)` is any non-empty document, even one holding none of the four keys the model reads.
- Every literal string and default is kept as written, including where they differ:
  - The farewell default is "Goodbye!" after an exit phrase and in the session-limit message,
    but "Alright. Goodbye!" after a negative follow-up.
  - A failed listen speaks the loop's own fallback default ("I'm sorry, I didn't quite catch
    that. Could you please say it again?"). An unmatched utterance speaks the matcher's default
    ("I'm sorry, I didn't understand that.").
  - The code thus uses two different fallback defaults, and the model keeps both.
- The session-limit message is one message: the limit sentence followed by the farewell. It is
  the last one spoken, not an addition to an earlier farewell.
- The exit and negative phrases are tested by substring, as received, and case-sensitively. So
  "another" contains "no" (`AnotherQuestionDeclines`).
- The state datatype `Session` also records the result of every main-slot listen (`mains`). This
  makes "three consecutive failed listens" statable. The imperative method keeps it as a ghost
  variable.

## Model

| member | source | states |
|---|---|---|
| `Text.Lower` | ai_voice_assistant/core/intent_handler.py:38 | `str.lower()` on ASCII: the result has the input's length and no upper-case letter; `LowerIdempotent` proves it idempotent |
| `Text.Contains` | ai_voice_assistant/core/intent_handler.py:38 | Python's `part in text`, scanned along the text; a part found is no longer than the text, and `ContainsIffOccurs` characterises it by offsets |
| `Text.ContainsIffOccurs` | ai_voice_assistant/core/intent_handler.py:38 | substring containment as scanned holds exactly when the part occurs at some offset of the text |
| `Text.LowerIdempotent` | ai_voice_assistant/core/voice_input.py:39 | lower-casing twice is lower-casing once |
| `Text.ContainsAny` | ai_voice_assistant/main.py:76 | `any(p in text for p in phrases)` holds exactly when some listed phrase occurs in the text |
| `IntentHandler.AnyKeywordMatches` | ai_voice_assistant/core/intent_handler.py:36-38 | the keyword scan succeeds exactly when some keyword, lower-cased, occurs in the lower-cased text |
| `IntentHandler.KeywordMatches` | ai_voice_assistant/core/intent_handler.py:38 | definition of `keyword.lower() in text.lower()`; its properties are carried by `SameLowerSameMatches` and `AnyKeywordMatches` |
| `IntentHandler.Fallback` | ai_voice_assistant/core/intent_handler.py:33 | definition of the matcher's fallback, `fallback.default` or "I'm sorry, I didn't understand that."; used by `NoMatchGivesFallback` and `FirstMatchIsRecognized` |
| `IntentHandler.ResponseOf` | ai_voice_assistant/core/intent_handler.py:39 | definition of `intent_info.get("response", fallback_response)`; `FirstMatchIsRecognized` and `RecognizedIsFirstMatch` prove it is the response returned for a matched intent |
| `IntentHandler.FirstMatchingIntent` | ai_voice_assistant/core/intent_handler.py:35-39 | the intent found has a matching keyword and no earlier intent in stored order has one; none is found exactly when no intent has one |
| `IntentHandler.RecognizeIntent` | ai_voice_assistant/core/intent_handler.py:29-41 | the response is absent exactly when the utterance is empty; an empty utterance or a knowledge base without intents yields no intent |
| `IntentHandler.FirstMatchIsRecognized` | ai_voice_assistant/core/intent_handler.py:33-39 | the first intent with a matching keyword is returned with its own response, or the knowledge-base fallback when it has none |
| `IntentHandler.RecognizedIsFirstMatch` | ai_voice_assistant/core/intent_handler.py:33-39 | with distinct keys, a returned intent has a matching keyword, no earlier intent has one, and the response is its own or the fallback |
| `IntentHandler.NoMatchGivesFallback` | ai_voice_assistant/core/intent_handler.py:33-41 | for a non-empty utterance, no intent is returned exactly when no intent matches, and then the response is `fallback.default` or "I'm sorry, I didn't understand that." |
| `IntentHandler.NoKeywordsNeverRecognized` | ai_voice_assistant/core/intent_handler.py:36-37 | an intent with an empty or absent keyword list is never returned |
| `IntentHandler.EmptyKeywordShadowsLaterIntents` | ai_voice_assistant/core/intent_handler.py:35-39 | an intent with an empty keyword is matched by every utterance, so no later intent is ever returned |
| `IntentHandler.SameLowerSameMatches` | ai_voice_assistant/core/intent_handler.py:38 | texts equal after lower-casing are matched by the same keywords |
| `IntentHandler.CaseInsensitive` | ai_voice_assistant/core/intent_handler.py:38 | utterances equal after lower-casing get the same result |
| `IntentHandler.LowerCasedInputRecognizedAlike` | ai_voice_assistant/core/voice_input.py:39 | lower-casing the utterance in the speech front end does not change what is recognised |
| `IntentHandler.TrackExample` | ai_voice_assistant/core/intent_handler.py:16-41 | "I want to track my package" against keywords "order status", "track" with response "R1" gives ("status", "R1") |
| `Conversation.Turn` | ai_voice_assistant/main.py:67-103 | one loop body raises the interaction count by one, records the main listen, only appends to what was said, resets the failure count on a non-empty utterance and otherwise adds one, and consumes a second stream element exactly when the follow-up is asked |
| `Conversation.NonEmpty` | ai_voice_assistant/main.py:72-91 | definition of Python truthiness of an optional string, used for `if user_input`, `if intent_key` and `follow_up_input and …`; `ReplyWithoutFollowUp`, `EmptyKeyIntentAsksNoFollowUp` and `FailedListen` state its effect |
| `Conversation.Initial` | ai_voice_assistant/main.py:52-63 | definition of the state on loop entry: both counters zero, the call active, and the connecting message and greeting spoken; `InitialInv` proves the invariant holds there |
| `Conversation.Listen` | ai_voice_assistant/main.py:70 | definition of one `listen_for_audio` call as reading the next stream element, `None` once the stream is exhausted; `SessionBounds` bounds how far the loop reads |
| `Conversation.AsksFollowUp` | ai_voice_assistant/main.py:72-87 | definition of the condition for the follow-up prompt and listen; `Turn`, `FollowUpOutcome` and `ReplyWithoutFollowUp` state what happens on each side of it |
| `Conversation.Greeting` | ai_voice_assistant/main.py:59 | definition of `greetings.default` or "Hello! How can I help you today?"; `SessionEnding` proves it is the second message |
| `Conversation.ListenFallback` | ai_voice_assistant/main.py:52 | definition of the loop's own fallback, `fallback.default` or "I'm sorry, I didn't quite catch that. Could you please say it again?"; spoken per `FailedListen` |
| `Conversation.Farewell` | ai_voice_assistant/main.py:77 | definition of `farewells.default` with the call site's default ("Goodbye!" at lines 77 and 109, "Alright. Goodbye!" at line 92); used by `ExitPhraseEndsCall` and `FollowUpOutcome` |
| `Conversation.LimitMessage` | ai_voice_assistant/main.py:109 | definition of the session-limit sentence followed by the farewell; `SessionEnding` proves when it ends the transcript |
| `Conversation.RunFrom` | ai_voice_assistant/main.py:66-106 | definition of the `while active_call and interaction_count < max_interactions` loop; `RunFromKeepsInv` proves its invariant and exit condition |
| `Conversation.Transcript` | ai_voice_assistant/main.py:49-111 | definition of everything the loop speaks, including the limit message; `SessionEnding` proves how it starts and ends, and `ConversationLoop` is proved equal to it |
| `ConversationProperties.TrailingSilenceAtLeastThree` | ai_voice_assistant/main.py:97-101 | at least three trailing failed listens is the same as the last three main listens all failing |
| `ConversationProperties.InitialInv` | ai_voice_assistant/main.py:52-66 | the loop invariant holds on entry: no interactions, no failures, nothing consumed, the transcript begins with the connecting message and the greeting |
| `ConversationProperties.TurnKeepsInv` | ai_voice_assistant/main.py:66-106 | a loop body run on an active session under the interaction cap keeps the loop invariant: counters in bounds, the failure count equals the run of trailing failed listens, an ended call ends with its closing message |
| `ConversationProperties.RunFromKeepsInv` | ai_voice_assistant/main.py:66-106 | the whole loop keeps the invariant, and it leaves the call active only after exactly five interactions |
| `ConversationProperties.SessionBounds` | ai_voice_assistant/main.py:63-67 | the body runs at most five times, the loop consumes between one and two stream elements per interaction in total (the per-run bound is `Turn`'s), and the failure count never exceeds three |
| `ConversationProperties.SessionEnding` | ai_voice_assistant/main.py:97-109 | the transcript starts with the connecting message and the greeting; it ends with the trouble message when the last three main listens failed, with the session-limit message when the call is still active after five interactions, and otherwise with a farewell |
| `ConversationProperties.ExitPhraseEndsCall` | ai_voice_assistant/main.py:76-79 | an utterance containing an exit phrase speaks the farewell (default "Goodbye!") and ends the call, and the result does not depend on the intents at all |
| `ConversationProperties.FailedListen` | ai_voice_assistant/main.py:97-103 | a failed listen speaks the loop fallback and continues, unless the last three main listens failed, when it speaks the trouble message and ends the call |
| `ConversationProperties.FollowUpOutcome` | ai_voice_assistant/main.py:83-93 | after the follow-up prompt, a reply with a negative phrase speaks the farewell (default "Alright. Goodbye!") and ends the call, anything else continues, and the counters are those of the main listen alone |
| `ConversationProperties.ReplyWithoutFollowUp` | ai_voice_assistant/main.py:83-95 | a heard utterance with no exit phrase that asks no follow-up (no intent, an intent keyed "", or a continuing intent) speaks exactly the matcher's response, keeps the call active, resets the failure count, and consumes one stream element; the follow-up prompt is not spoken |
| `ConversationProperties.UnmatchedUtteranceGetsMatcherFallback` | ai_voice_assistant/main.py:94-95 | an utterance matching no intent is answered with the matcher's fallback, `fallback.default` or "I'm sorry, I didn't understand that.", and the call goes on |
| `ConversationProperties.EmptyKeyIntentAsksNoFollowUp` | ai_voice_assistant/main.py:83-87 | an intent keyed "" is falsy to the loop: its own response (or the fallback) is spoken and no follow-up is asked |
| `ConversationProperties.ThreeSilencesEndCall` | ai_voice_assistant/main.py:56-103 | for every knowledge base, three failed listens give: connecting, greeting, fallback, fallback, trouble message |
| `ConversationProperties.GoodbyeEndsCall` | ai_voice_assistant/main.py:56-79 | for every knowledge base, "goodbye" as the first utterance gives: connecting, greeting, farewell |
| `ConversationProperties.AnotherQuestionDeclines` | ai_voice_assistant/main.py:91 | the follow-up reply "i have another question" counts as a negative reply, because "another" contains "no" |
| `Assistant.ConversationLoop` | ai_voice_assistant/main.py:49-111 | the imperative loop speaks exactly the specified transcript and consumes at most ten stream elements; the transcript starts with the connecting message and the greeting |
| `Assistant.RunAssistant` | ai_voice_assistant/main.py:119-135 | without a knowledge base only the start-up and critical-error messages are spoken and the loop never runs; otherwise start-up, the loop's transcript and the shutdown message are spoken, the shutdown message last |

## Left out

- Loading the knowledge base (`load_knowledge_base`, `load_knowledge_base_from_path`) is filesystem probing and JSON parsing. The model takes the parsed knowledge base, or its absence, as input.
- JSON values of unexpected types are not modelled: a `null` response, non-string keywords, or a `fallback` that is not an object.
- The speech-to-text wrapper (`core/voice_input.py`) and its microphone, timeouts and web service are replaced by the input stream. Its lower-casing of the result is not assumed by the loop; `LowerCasedInputRecognizedAlike` shows it does not matter to the matcher.
- The text-to-speech wrapper (`core/voice_output.py`) and its global engine handle are replaced by appending to the transcript. Degraded print-only output is the same transcript.
- `time.sleep`, the `sys.path` set-up, `print` diagnostics and the `__main__` demo blocks are left out. None has observable logic.
- The `except Exception` branch of `main` is left out. It catches failures of the speech libraries and the type errors raised by the malformed knowledge-base values listed above; the model has neither. The `finally` shutdown message is modelled.
- `Lower` lower-cases ASCII letters only, not the full Unicode `str.lower`.
- `core/__init__.py` only re-exports names and is not modelled.
