/** What the conversation loop guarantees: bounds on the counters, which message ends the
    session, and the step rules for exit phrases, failed listens and the follow-up. */
module ConversationProperties {
  import opened Wrappers
  import opened Text
  import opened IntentHandler
  import opened Conversation

  /** How many listens at the end of `mains` heard nothing. */
  function TrailingSilence(mains: seq<Option<string>>): nat {
    if mains == [] || NonEmpty(mains[|mains| - 1]) then 0
    else 1 + TrailingSilence(mains[..|mains| - 1])
  }

  /** The last three main-slot listens all heard nothing. */
  ghost predicate EndsInSilence(mains: seq<Option<string>>) {
    |mains| >= MaxFailedAttempts
    && forall k :: |mains| - MaxFailedAttempts <= k < |mains| ==> !NonEmpty(mains[k])
  }

  lemma {:induction false} TrailingSilenceAtLeastThree(mains: seq<Option<string>>)
    ensures TrailingSilence(mains) >= MaxFailedAttempts <==> EndsInSilence(mains)
  {
    var n := |mains|;
    if n >= 1 && !NonEmpty(mains[n - 1]) {
      var m1 := mains[..n - 1];
      if n >= 2 && !NonEmpty(mains[n - 2]) {
        assert m1[n - 2] == mains[n - 2];
        var m2 := m1[..n - 2];
        if n >= 3 && !NonEmpty(mains[n - 3]) {
          assert m2[n - 3] == mains[n - 3];
          assert TrailingSilence(m2) >= 1;
          assert TrailingSilence(m1) == 1 + TrailingSilence(m2);
          assert TrailingSilence(mains) == 1 + TrailingSilence(m1);
          assert forall k :: n - 3 <= k < n ==> !NonEmpty(mains[k]);
        } else {
          assert n >= 3 ==> m2[n - 3] == mains[n - 3];
          assert TrailingSilence(m2) == 0;
        }
      } else {
        assert n >= 2 ==> m1[n - 2] == mains[n - 2];
        assert TrailingSilence(m1) == 0;
      }
    }
  }

  function Last(s: seq<string>): string
    requires s != []
  {
    s[|s| - 1]
  }

  /** The loop invariant of `main_conversation_loop`. */
  ghost predicate Inv(kb: KnowledgeBase, s: Session) {
    && s.interactions <= MaxInteractions
    && |s.mains| == s.interactions
    && s.failed == TrailingSilence(s.mains)
    && s.failed <= MaxFailedAttempts
    && (s.active ==> s.failed < MaxFailedAttempts)
    && s.interactions <= s.next <= 2 * s.interactions
    && |s.said| >= 2 + s.interactions
    && s.said[..2] == [ConnectingMessage, Greeting(kb)]
    && (!s.active ==> s.interactions > 0 && Ended(kb, s))
  }

  /** How an inactive session ended: three silences and the trouble message, or a farewell
      after something was heard. */
  ghost predicate Ended(kb: KnowledgeBase, s: Session)
    requires s.said != []
  {
    if s.failed == MaxFailedAttempts then Last(s.said) == TroubleMessage
    else (s.failed == 0
          && (Last(s.said) == Farewell(kb, DefaultFarewell)
              || Last(s.said) == Farewell(kb, DefaultFollowUpFarewell)))
  }

  lemma InitialInv(kb: KnowledgeBase)
    ensures Inv(kb, Initial(kb))
  {
  }

  lemma TurnKeepsInv(kb: KnowledgeBase, audio: seq<Option<string>>, s: Session)
    requires Inv(kb, s) && s.active && s.interactions < MaxInteractions
    ensures Inv(kb, Turn(kb, audio, s))
  {

  }

  lemma {:induction false} RunFromKeepsInv(kb: KnowledgeBase, audio: seq<Option<string>>, s: Session)
    requires Inv(kb, s)
    ensures Inv(kb, RunFrom(kb, audio, s))
    ensures RunFrom(kb, audio, s).active ==> RunFrom(kb, audio, s).interactions == MaxInteractions
    decreases MaxInteractions - s.interactions
  {
    if s.active && s.interactions < MaxInteractions {
      TurnKeepsInv(kb, audio, s);
      RunFromKeepsInv(kb, audio, Turn(kb, audio, s));
    }
  }

  /** The loop body runs at most five times, the loop consumes between one and two stream
      elements per interaction over the whole session, and the failure counter never passes three. */
  lemma SessionBounds(kb: KnowledgeBase, audio: seq<Option<string>>)
    ensures Final(kb, audio).interactions <= MaxInteractions
    ensures |Final(kb, audio).mains| == Final(kb, audio).interactions
    ensures Final(kb, audio).interactions <= Final(kb, audio).next <= 2 * Final(kb, audio).interactions
    ensures Final(kb, audio).failed <= MaxFailedAttempts
    ensures Final(kb, audio).active ==> Final(kb, audio).interactions == MaxInteractions
  {
    InitialInv(kb);
    RunFromKeepsInv(kb, audio, Initial(kb));
  }

  /** Which message ends the session: the trouble message exactly when the last three
      main-slot listens heard nothing; otherwise the session-limit message when the loop ran
      out of interactions while the call was still active, and a farewell when it did not. */
  lemma SessionEnding(kb: KnowledgeBase, audio: seq<Option<string>>)
    ensures |Transcript(kb, audio)| > 2
    ensures Transcript(kb, audio)[..2] == [ConnectingMessage, Greeting(kb)]
    ensures EndsInSilence(Final(kb, audio).mains)
        ==> !Final(kb, audio).active && Last(Transcript(kb, audio)) == TroubleMessage
    ensures !EndsInSilence(Final(kb, audio).mains) && Final(kb, audio).active
        ==> (Final(kb, audio).interactions == MaxInteractions
             && Last(Transcript(kb, audio)) == LimitMessage(kb))
    ensures !EndsInSilence(Final(kb, audio).mains) && !Final(kb, audio).active
        ==> (Last(Transcript(kb, audio)) == Farewell(kb, DefaultFarewell)
             || Last(Transcript(kb, audio)) == Farewell(kb, DefaultFollowUpFarewell))
  {
    var f := Final(kb, audio);
    InitialInv(kb);
    RunFromKeepsInv(kb, audio, Initial(kb));
    TrailingSilenceAtLeastThree(f.mains);
    assert Transcript(kb, audio)[..2] == f.said[..2];
  }

  /** An utterance containing an exit phrase (checked as received, case-sensitively) speaks
      the farewell and ends the call; the intents are not consulted. */
  lemma ExitPhraseEndsCall(kb: KnowledgeBase, audio: seq<Option<string>>, s: Session,
                           otherIntents: seq<(string, Entry)>)
    requires NonEmpty(Listen(audio, s.next)) && ContainsAny(Listen(audio, s.next).value, ExitPhrases)
    ensures Turn(kb, audio, s)
         == Session(s.interactions + 1, 0, false, s.next + 1,
                    s.said + [Farewell(kb, DefaultFarewell)], s.mains + [Listen(audio, s.next)])
    ensures Turn(kb, audio, s) == Turn(kb.(intents := otherIntents), audio, s)
  {
  }

  /** A failed listen speaks the loop's fallback and goes on, unless it is the third failure
      in a row, which speaks the trouble message and ends the call. */
  lemma FailedListen(kb: KnowledgeBase, audio: seq<Option<string>>, s: Session)
    requires Inv(kb, s) && s.active && s.interactions < MaxInteractions
    requires !NonEmpty(Listen(audio, s.next))
    ensures var t := Turn(kb, audio, s);
      t.active == !EndsInSilence(t.mains)
      && t.said == s.said + [if EndsInSilence(t.mains) then TroubleMessage else ListenFallback(kb)]
  {
    var t := Turn(kb, audio, s);
    assert t.mains[..|t.mains| - 1] == s.mains;
    TrailingSilenceAtLeastThree(t.mains);
  }

  /** After the follow-up prompt, a reply containing a negative phrase speaks the follow-up
      farewell and ends the call; any other reply (or none) keeps the call going. Either way
      the counters are those of the main listen alone. */
  lemma FollowUpOutcome(kb: KnowledgeBase, audio: seq<Option<string>>, s: Session)
    requires AsksFollowUp(kb, Listen(audio, s.next))
    ensures var t := Turn(kb, audio, s);
      var followUp := Listen(audio, s.next + 1);
      var reply := RecognizeIntent(Listen(audio, s.next).value, kb).response.value;
      var declined := NonEmpty(followUp) && ContainsAny(followUp.value, NegativePhrases);
      && t.active == !declined
      && t.said == s.said + [reply, FollowUpPrompt]
                  + (if declined then [Farewell(kb, DefaultFollowUpFarewell)] else [])
      && t.failed == 0 && t.interactions == s.interactions + 1
  {
  }

  /** A non-empty utterance without an exit phrase that asks no follow-up (no intent, an
      intent keyed "", or a continuing intent) speaks exactly the matcher's response, keeps the
      call going and consumes one stream element; the follow-up prompt is not spoken. */
  lemma ReplyWithoutFollowUp(kb: KnowledgeBase, audio: seq<Option<string>>, s: Session)
    requires NonEmpty(Listen(audio, s.next))
    requires !ContainsAny(Listen(audio, s.next).value, ExitPhrases)
    requires !AsksFollowUp(kb, Listen(audio, s.next))
    ensures Turn(kb, audio, s)
         == Session(s.interactions + 1, 0, true, s.next + 1,
                    s.said + [RecognizeIntent(Listen(audio, s.next).value, kb).response.value],
                    s.mains + [Listen(audio, s.next)])
  {
  }

  /** An utterance that matches no intent is answered with the matcher's fallback
      (`fallback.default` or "I'm sorry, I didn't understand that."), not the listen fallback. */
  lemma UnmatchedUtteranceGetsMatcherFallback(kb: KnowledgeBase, audio: seq<Option<string>>, s: Session)
    requires NonEmpty(Listen(audio, s.next))
    requires !ContainsAny(Listen(audio, s.next).value, ExitPhrases)
    requires RecognizeIntent(Listen(audio, s.next).value, kb).intent.None?
    ensures Turn(kb, audio, s).active && Turn(kb, audio, s).next == s.next + 1
    ensures Turn(kb, audio, s).said
         == s.said + [kb.fallback.GetOr("I'm sorry, I didn't understand that.")]
  {
    ReplyWithoutFollowUp(kb, audio, s);
  }

  /** An intent keyed "" is falsy to the loop: its response is spoken and no follow-up is asked. */
  lemma EmptyKeyIntentAsksNoFollowUp(kb: KnowledgeBase, audio: seq<Option<string>>, s: Session, i: nat)
    requires UniqueKeys(kb.intents) && i < |kb.intents| && kb.intents[i].0 == ""
    requires NonEmpty(Listen(audio, s.next))
    requires !ContainsAny(Listen(audio, s.next).value, ExitPhrases)
    requires RecognizeIntent(Listen(audio, s.next).value, kb).intent == Some("")
    ensures !AsksFollowUp(kb, Listen(audio, s.next))
    ensures Turn(kb, audio, s).active && Turn(kb, audio, s).next == s.next + 1
    ensures Turn(kb, audio, s).said == s.said + [ResponseOf(kb.intents[i].1, kb)]
  {
    RecognizedIsFirstMatch(Listen(audio, s.next).value, kb, i);
    ReplyWithoutFollowUp(kb, audio, s);
  }

  /** Three listens that hear nothing end the call, whatever the knowledge base holds. */
  lemma ThreeSilencesEndCall(kb: KnowledgeBase)
    ensures Transcript(kb, [None, None, None])
         == [ConnectingMessage, Greeting(kb), ListenFallback(kb), ListenFallback(kb), TroubleMessage]
  {
    var audio: seq<Option<string>> := [None, None, None];
    var s0 := Initial(kb);
    var s1 := Turn(kb, audio, s0);
    var s2 := Turn(kb, audio, s1);
    var s3 := Turn(kb, audio, s2);
    assert s1.failed == 1 && s1.active && s1.next == 1;
    assert s2.failed == 2 && s2.active && s2.next == 2;
    assert !s3.active;
    assert RunFrom(kb, audio, s3) == s3;
    assert RunFrom(kb, audio, s2) == s3;
    assert RunFrom(kb, audio, s1) == s3;
    assert RunFrom(kb, audio, s0) == s3;
  }

  /** "goodbye" as the first utterance ends the call at once with the farewell. */
  lemma GoodbyeEndsCall(kb: KnowledgeBase)
    ensures Transcript(kb, [Some("goodbye")])
         == [ConnectingMessage, Greeting(kb), Farewell(kb, DefaultFarewell)]
  {
    var audio := [Some("goodbye")];
    assert Contains("goodbye", ExitPhrases[0]);
    var s1 := Turn(kb, audio, Initial(kb));
    assert RunFrom(kb, audio, s1) == s1;
  }

  /** The negative phrases are substrings, not words: "another" contains "no", so a
      follow-up reply asking for more help still ends the call. */
  lemma AnotherQuestionDeclines()
    ensures var followUp := Some("i have another question");
      NonEmpty(followUp) && ContainsAny(followUp.value, NegativePhrases)
  {
    var reply := "i have another question";
    assert OccursAt(reply, NegativePhrases[0], 8);
    ContainsIffOccurs(reply, NegativePhrases[0]);
  }
}
