/** Keyword intent matching (ai_voice_assistant/core/intent_handler.py, `recognize_intent`).

    The knowledge base is the parsed JSON document. Its `intents` object is modelled as the
    ordered sequence of its (key, entry) pairs, because `json.load` and Python dicts keep
    insertion order and the matcher's tie-break depends on that order. */
module IntentHandler {
  import opened Wrappers
  import opened Text

  /** One intent: its trigger keywords (an absent `keywords` key is the empty list) and its
      `response`, which may be absent. */
  datatype Entry = Entry(keywords: seq<string>, response: Option<string>)

  /** The knowledge base: the `intents` object in document order (an absent key is the empty
      sequence) and the optional `fallback.default`, `greetings.default` and `farewells.default`. */
  datatype KnowledgeBase = KnowledgeBase(
    intents: seq<(string, Entry)>,
    fallback: Option<string>,
    greeting: Option<string>,
    farewell: Option<string>)

  /** What `recognize_intent` returns: the matched intent's key and the response to speak. */
  datatype Recognition = Recognition(intent: Option<string>, response: Option<string>)

  /** The matcher's own built-in fallback text. */
  const DefaultFallback: string := "I'm sorry, I didn't understand that."

  /** `knowledge_base.get("fallback", {}).get("default", ...)` as the matcher computes it. */
  function Fallback(kb: KnowledgeBase): string {
    kb.fallback.GetOr(DefaultFallback)
  }

  /** JSON object keys are distinct. */
  ghost predicate UniqueKeys(intents: seq<(string, Entry)>) {
    forall i, j :: 0 <= i < j < |intents| ==> intents[i].0 != intents[j].0
  }

  /** `keyword.lower() in text.lower()`. */
  predicate KeywordMatches(keyword: string, text: string) {
    Contains(Lower(text), Lower(keyword))
  }

  /** Some keyword of the entry occurs, ignoring case, in the text. */
  ghost predicate EntryMatches(e: Entry, text: string) {
    exists j :: 0 <= j < |e.keywords| && KeywordMatches(e.keywords[j], text)
  }

  /** The inner `for keyword in keywords` loop: does any keyword match? */
  function AnyKeywordMatches(keywords: seq<string>, text: string): (b: bool)
    ensures b <==> EntryMatches(Entry(keywords, None), text)
  {
    if keywords == [] then false
    else if KeywordMatches(keywords[0], text) then true
    else
      assert forall j :: 1 <= j < |keywords| ==> keywords[j] == keywords[1..][j - 1];
      AnyKeywordMatches(keywords[1..], text)
  }

  /** The outer `for intent_key, intent_info in intents_data.items()` loop: the position of the
      first intent, in stored order, that has a matching keyword. */
  function FirstMatchingIntent(intents: seq<(string, Entry)>, text: string): (r: Option<nat>)
    ensures r.Some? ==> r.value < |intents| && EntryMatches(intents[r.value].1, text)
    ensures r.Some? ==> forall i :: 0 <= i < r.value ==> !EntryMatches(intents[i].1, text)
    ensures r.None? <==> forall i :: 0 <= i < |intents| ==> !EntryMatches(intents[i].1, text)
  {
    if intents == [] then None
    else if AnyKeywordMatches(intents[0].1.keywords, text) then
      assert EntryMatches(Entry(intents[0].1.keywords, None), text);
      Some(0)
    else
      assert !EntryMatches(intents[0].1, text);
      assert forall i :: 1 <= i < |intents| ==> intents[i] == intents[1..][i - 1];
      match FirstMatchingIntent(intents[1..], text)
      case None => None
      case Some(i) => Some(i + 1)
  }

  /** `intent_info.get("response", fallback_response)`: the intent's own response, or the
      knowledge-base fallback. */
  function ResponseOf(e: Entry, kb: KnowledgeBase): string {
    e.response.GetOr(Fallback(kb))
  }

  /** `recognize_intent(text, knowledge_base)`. */
  function RecognizeIntent(text: string, kb: KnowledgeBase): (r: Recognition)
    ensures r.response.None? <==> text == []
    ensures text == [] ==> r.intent.None?
    ensures kb.intents == [] ==> r.intent.None?
  {
    if text == [] then Recognition(None, None)
    else
      match FirstMatchingIntent(kb.intents, text)
      case None => Recognition(None, Some(Fallback(kb)))
      case Some(i) => Recognition(Some(kb.intents[i].0), Some(ResponseOf(kb.intents[i].1, kb)))
  }

  /** The first intent in stored order with a matching keyword is the one returned, with its
      response (or the fallback when it has none). */
  lemma FirstMatchIsRecognized(text: string, kb: KnowledgeBase, i: nat)
    requires text != []
    requires i < |kb.intents| && EntryMatches(kb.intents[i].1, text)
    requires forall k :: 0 <= k < i ==> !EntryMatches(kb.intents[k].1, text)
    ensures RecognizeIntent(text, kb)
         == Recognition(Some(kb.intents[i].0), Some(ResponseOf(kb.intents[i].1, kb)))
  {

  }

  /** Conversely, an intent that is returned has a matching keyword, no earlier intent has
      one, and the response is the intent's own or the fallback. */
  lemma RecognizedIsFirstMatch(text: string, kb: KnowledgeBase, i: nat)
    requires UniqueKeys(kb.intents)
    requires i < |kb.intents|
    requires RecognizeIntent(text, kb).intent == Some(kb.intents[i].0)
    ensures EntryMatches(kb.intents[i].1, text)
    ensures forall k :: 0 <= k < i ==> !EntryMatches(kb.intents[k].1, text)
    ensures RecognizeIntent(text, kb).response == Some(ResponseOf(kb.intents[i].1, kb))
  {

  }

  /** For a non-empty utterance no intent is returned exactly when no intent has a matching
      keyword, and then the response is the fallback. */
  lemma NoMatchGivesFallback(text: string, kb: KnowledgeBase)
    requires text != []
    ensures RecognizeIntent(text, kb).intent.None?
        <==> forall i :: 0 <= i < |kb.intents| ==> !EntryMatches(kb.intents[i].1, text)
    ensures RecognizeIntent(text, kb).intent.None?
        ==> RecognizeIntent(text, kb).response == Some(kb.fallback.GetOr("I'm sorry, I didn't understand that."))
  {
  }

  /** An intent with no keywords is never returned. */
  lemma NoKeywordsNeverRecognized(text: string, kb: KnowledgeBase, i: nat)
    requires UniqueKeys(kb.intents)
    requires i < |kb.intents| && kb.intents[i].1.keywords == []
    ensures RecognizeIntent(text, kb).intent != Some(kb.intents[i].0)
  {

  }

  /** An empty keyword occurs in every utterance, so no intent after one that has it is
      ever returned. */
  lemma EmptyKeywordShadowsLaterIntents(text: string, kb: KnowledgeBase, i: nat, j: nat)
    requires UniqueKeys(kb.intents)
    requires i < j < |kb.intents| && "" in kb.intents[i].1.keywords
    ensures RecognizeIntent(text, kb).intent != Some(kb.intents[j].0)
  {

  }

  /** Texts that agree after lower-casing have the same keyword matches. */
  lemma SameLowerSameMatches(keywords: seq<string>, t1: string, t2: string)
    requires Lower(t1) == Lower(t2)
    ensures EntryMatches(Entry(keywords, None), t1) == EntryMatches(Entry(keywords, None), t2)
  {

  }

  /** Matching ignores case: utterances equal after lower-casing are recognized alike. */
  lemma CaseInsensitive(t1: string, t2: string, kb: KnowledgeBase)
    requires Lower(t1) == Lower(t2)
    ensures RecognizeIntent(t1, kb) == RecognizeIntent(t2, kb)
  {

  }

  /** Lower-casing the utterance first (as the speech front end does) changes nothing. */
  lemma LowerCasedInputRecognizedAlike(text: string, kb: KnowledgeBase)
    ensures RecognizeIntent(Lower(text), kb) == RecognizeIntent(text, kb)
  {
    LowerIdempotent(text);
    CaseInsensitive(Lower(text), text, kb);
  }

  /** An example: keywords "order status" and "track", response "R1". */
  lemma TrackExample()
    ensures RecognizeIntent("I want to track my package",
              KnowledgeBase([("status", Entry(["order status", "track"], Some("R1")))], None, None, None))
         == Recognition(Some("status"), Some("R1"))
  {
    var text := "I want to track my package";
    var lowered := "i want to track my package";
    assert Lower(text) == lowered by {
      forall i | 0 <= i < |text| ensures Lower(text)[i] == lowered[i] {
        if i == 0 { assert LowerChar(text[0]) == 'i'; } else { assert text[i] == lowered[i]; }
      }
    }
    assert Lower("track") == "track";
    assert OccursAt(lowered, "track", 10);
    ContainsIffOccurs(lowered, "track");
    var e := Entry(["order status", "track"], Some("R1"));
    assert KeywordMatches(e.keywords[1], text);
    assert EntryMatches(e, text);
    FirstMatchIsRecognized(text, KnowledgeBase([("status", e)], None, None, None), 0);
  }
}
