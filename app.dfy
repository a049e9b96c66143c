/** The chat screen's state (`App`): the conversation, the loading flag, the session flag and
    the error banner; sending a message, with the local crisis check before any request; and
    the "Last Score" shown in the header. */
module App {
  import opened Js
  import opened Types
  import SafetyCheck
  import GeminiApi
  import GeminiService

  /** An AEGIS response object with the five fields the client shows. */
  function AegisResponseJson(reply: string, prompt: string, score: Json, tip: string, alert: bool): Json
  {
    Obj(map[
      "empatheticReply" := Str(reply),
      "reflectionPrompt" := Str(prompt),
      "improvementTip" := Str(tip),
      "isSafetyAlert" := Bool(alert),
      "wellbeingScore" := score])
  }

  /** The greeting: no score yet. */
  const InitialAegisResponse: Json := AegisResponseJson(
    "Greetings. I am AEGIS, a tool for focused self-reflection. I'm here to listen and help you explore your thoughts and feelings. Please remember, I am an AI and not a substitute for professional human support. What is on your mind today?",
    "You can start by describing a situation or a feeling that's been occupying your thoughts.",
    Null,
    "Taking a moment to check in with yourself is a positive step. Be kind to yourself as you reflect.",
    false)

  const SafetyReply: string :=
    "It sounds like you are in a lot of pain, and I want you to know it's incredibly brave of you to express it. These feelings can be overwhelming, but they can also pass. Please don't act on these thoughts. You are not alone, and help is available. For immediate support, please call or text the 988 Suicide & Crisis Lifeline."

  /** The fixed answer to a message the crisis check flags: score 5, alert set, crisis line. */
  const SafetyAlertResponse: Json := AegisResponseJson(
    SafetyReply,
    "If you feel up to it, could you tell me a little more about what's causing these feelings? There is no pressure to share if you don't wish to.",
    Num(5),
    "Please consider speaking with a parent or another adult you trust about what you're experiencing. Also, sometimes, a small, grounding distraction can help. Could you try putting on your favorite song or watching a comforting video for a few minutes?",
    true)

  predicate OccursAt(s: string, i: int, w: string)
  {
    0 <= i && i + |w| <= |s| && s[i..i + |w|] == w
  }

  /** The canned answer is a safety alert with score 5 and the fixed reply. */
  lemma SafetyAlertResponseShape()
    ensures Get(SafetyAlertResponse, "wellbeingScore") == Some(Num(5))
    ensures Get(SafetyAlertResponse, "isSafetyAlert") == Some(Bool(true))
    ensures Get(SafetyAlertResponse, "empatheticReply") == Some(Str(SafetyReply))
  {
  }

  /** The canned reply names the 988 crisis line. */
  lemma SafetyReplyNames988()
    ensures exists i :: OccursAt(SafetyReply, i, "988")
  {
    assert SafetyReply[293] == '9' && SafetyReply[294] == '8' && SafetyReply[295] == '8';
    assert SafetyReply[293..296] == "988";
    assert OccursAt(SafetyReply, 293, "988");
  }

  /** The greeting carries no score and no alert. */
  lemma InitialResponseShape()
    ensures Get(InitialAegisResponse, "wellbeingScore") == Some(Null)
    ensures Get(InitialAegisResponse, "isSafetyAlert") == Some(Bool(false))
  {
  }

  const InitialMessage: ChatMessage := ChatMessage("initial-0", Aegis, None, Some(InitialAegisResponse))

  /** A message the user sent at time `clock` (`Date.now()`). */
  function UserMessage(clock: nat, text: string): ChatMessage
  {
    ChatMessage("user-" + NatToDecimal(clock), User, Some(text), None)
  }

  /** An AEGIS message created at time `clock`. */
  function AegisMessage(clock: nat, response: Json): ChatMessage
  {
    ChatMessage("aegis-" + NatToDecimal(clock), Aegis, None, Some(response))
  }

  // ---------------------------------------------------------------------------
  // The header's "Last Score"

  /** `m.aegisResponse?.wellbeingScore`; `None` is `undefined`. */
  function ScoreField(m: ChatMessage): Option<Json>
  {
    if m.aegisResponse.Some? then Get(m.aegisResponse.value, GeminiApi.ScoreKey) else None
  }

  /** The `find` predicate: an AEGIS message whose score is not `null` (`undefined` passes). */
  predicate IsScored(m: ChatMessage)
  {
    m.sender == Aegis && ScoreField(m) != Some(Null)
  }

  /** The last scored message among the first `n`, searching from the end. */
  function LastScoredIndex(messages: seq<ChatMessage>, n: nat): (r: Option<nat>)
    requires n <= |messages|
    ensures r.Some? ==> r.value < n && IsScored(messages[r.value])
    ensures r.Some? ==> forall j :: r.value < j < n ==> !IsScored(messages[j])
    ensures r.None? ==> forall j :: 0 <= j < n ==> !IsScored(messages[j])
  {
    if n == 0 then None
    else if IsScored(messages[n - 1]) then Some(n - 1)
    else LastScoredIndex(messages, n - 1)
  }

  /** The header's score: the score of the last AEGIS message whose score is not `null`, with
      `null` when there is none or its score is missing. */
  function LastScore(messages: seq<ChatMessage>): (r: Json)
    ensures (forall i :: 0 <= i < |messages| ==> !IsScored(messages[i])) ==> r == Null
    ensures forall i :: 0 <= i < |messages| && IsScored(messages[i]) && (forall j :: i < j < |messages| ==> !IsScored(messages[j])) ==>
      r == (if ScoreField(messages[i]).Some? then ScoreField(messages[i]).value else Null)
    ensures r != Null ==>
      exists i :: 0 <= i < |messages| && IsScored(messages[i]) && ScoreField(messages[i]) == Some(r)
        && (forall j :: i < j < |messages| ==> !IsScored(messages[j]))
  {
    match LastScoredIndex(messages, |messages|)
    case None => Null
    case Some(i) => if ScoreField(messages[i]).Some? then ScoreField(messages[i]).value else Null
  }

  /** A message whose score the header may show: none, `null`, or a valid score. */
  predicate ScoreShown(m: ChatMessage)
  {
    var score := ScoreField(m);
    score.None? || score == Some(Null) || GeminiApi.ScoreIsValid(score)
  }

  predicate ScoresInRange(messages: seq<ChatMessage>)
  {
    forall i :: 0 <= i < |messages| ==> ScoreShown(messages[i])
  }

  /** What the header shows is `null` or a score within 0..100. */
  lemma LastScoreInRange(messages: seq<ChatMessage>)
    requires ScoresInRange(messages)
    ensures var s := LastScore(messages); s == Null || (s.Num? && 0 <= s.n <= 100)
  {
    var r := LastScoredIndex(messages, |messages|);
    if r.Some? {
      assert ScoreShown(messages[r.value]);
    }
  }

  /** Appending a scored message makes its score the last score; appending anything else
      leaves the last score as it was. */
  lemma {:induction false} LastScoreAfterAppend(messages: seq<ChatMessage>, m: ChatMessage)
    ensures IsScored(m) ==> LastScore(messages + [m]) == (if ScoreField(m).Some? then ScoreField(m).value else Null)
    ensures !IsScored(m) ==> LastScore(messages + [m]) == LastScore(messages)
  {
    var all := messages + [m];
    if !IsScored(m) {
      assert LastScoredIndex(all, |all|) == LastScoredIndex(all, |messages|);
      LastScoredPrefix(messages, m, |messages|);
    }
  }

  /** The search over the first `n` messages does not look at what comes after them. */
  lemma {:induction false} LastScoredPrefix(messages: seq<ChatMessage>, m: ChatMessage, n: nat)
    requires n <= |messages|
    ensures LastScoredIndex(messages + [m], n) == LastScoredIndex(messages, n)
  {
    if n > 0 {
      assert (messages + [m])[n - 1] == messages[n - 1];
      LastScoredPrefix(messages, m, n - 1);
    }
  }

  /** A fresh conversation shows no score. */
  lemma FreshSessionHasNoScore()
    ensures LastScore([InitialMessage]) == Null
  {
  }

  /** Right after a flagged message the header shows 5. */
  lemma SafetyAlertShowsFive(messages: seq<ChatMessage>, sendClock: nat, replyClock: nat, text: string)
    ensures LastScore(messages + [UserMessage(sendClock, text), AegisMessage(replyClock, SafetyAlertResponse)]) == Num(5)
  {
    LastScoreAfterAppend(messages + [UserMessage(sendClock, text)], AegisMessage(replyClock, SafetyAlertResponse));
    assert messages + [UserMessage(sendClock, text), AegisMessage(replyClock, SafetyAlertResponse)]
      == (messages + [UserMessage(sendClock, text)]) + [AegisMessage(replyClock, SafetyAlertResponse)];
  }

  lemma AppendKeepsScoresInRange(messages: seq<ChatMessage>, m: ChatMessage)
    requires ScoresInRange(messages) && ScoreShown(m)
    ensures ScoresInRange(messages + [m])
  {
    assert forall i :: 0 <= i < |messages| ==> (messages + [m])[i] == messages[i];
  }

  lemma AlertAndUserAreShown(sendClock: nat, userInput: string, replyClock: nat)
    ensures ScoreShown(UserMessage(sendClock, userInput))
    ensures ScoreShown(AegisMessage(replyClock, SafetyAlertResponse))
  {
    SafetyAlertResponseShape();
  }

  // ---------------------------------------------------------------------------
  // The screen's state

  class Session {
    var messages: seq<ChatMessage>
    var isLoading: bool
    var sessionEnded: bool
    var error: Option<string>

    /** The conversation always opens with the greeting; no code path ends a session; every
        score the header could pick is `null` or within 0..100. */
    predicate Valid()
      reads this
    {
      |messages| >= 1 && messages[0] == InitialMessage && !sessionEnded && ScoresInRange(messages)
    }

    constructor ()
      ensures Valid()
      ensures messages == [InitialMessage] && !isLoading && error.None?
    {
      messages := [InitialMessage];
      isLoading := false;
      sessionEnded := false;
      error := None;
    }

    /** The message box is disabled while a request is pending or once the session has ended. */
    function InputDisabled(): (r: bool)
      reads this
      requires Valid()
      ensures r <==> isLoading
    {
      isLoading || sessionEnded
    }

    /** `handleNewSession`. */
    method NewSession()
      modifies this
      ensures Valid()
      ensures messages == [InitialMessage] && !isLoading && error.None?
    {
      messages := [InitialMessage];
      isLoading := false;
      sessionEnded := false;
      error := None;
    }

    /** `handleSendMessage` up to the `await`: the user's message is shown at once; a flagged
        message gets the fixed safety answer without any request, otherwise the request is made
        and `awaiting` is true. */
    method BeginSend(userInput: string, sendClock: nat, replyClock: nat) returns (awaiting: bool)
      requires Valid()
      modifies this
      ensures Valid()
      ensures error.None?
      ensures awaiting <==> !SafetyCheck.CheckForCriticalKeywords(userInput)
      ensures !awaiting ==>
        messages == old(messages) + [UserMessage(sendClock, userInput), AegisMessage(replyClock, SafetyAlertResponse)]
      ensures awaiting ==> messages == old(messages) + [UserMessage(sendClock, userInput)]
      ensures isLoading <==> awaiting
    {
      var before := messages;
      var user := UserMessage(sendClock, userInput);
      error := None;
      isLoading := true;
      if SafetyCheck.CheckForCriticalKeywords(userInput) {
        var alert := AegisMessage(replyClock, SafetyAlertResponse);
        AlertAndUserAreShown(sendClock, userInput, replyClock);
        AppendKeepsScoresInRange(before, user);
        AppendKeepsScoresInRange(before + [user], alert);
        assert before + [user] + [alert] == before + [user, alert];
        messages := before + [user, alert];
        isLoading := false;
        return false;
      }
      AlertAndUserAreShown(sendClock, userInput, replyClock);
      AppendKeepsScoresInRange(before, user);
      messages := before + [user];
      return true;
    }

    /** `handleSendMessage` after the `await`: the answer is appended to the conversation as it
        is now (a new session may have started meanwhile), or its message is shown as the error;
        loading ends either way. */
    method Settle(fetch: GeminiService.FetchOutcome, clock: nat) returns (result: GeminiService.ServiceResult)
      requires Valid()
      modifies this
      ensures Valid()
      ensures !isLoading
      ensures result == GeminiService.Outcome(fetch)
      ensures result.Resolved? ==> messages == old(messages) + [AegisMessage(clock, result.response)]
      ensures result.Resolved? ==> error == old(error)
      ensures result.Rejected? ==> messages == old(messages) && error == Some(result.message)
    {
      result := GeminiService.GetAegisResponse(fetch);
      match result {
        case Resolved(response) =>
          AppendKeepsScoresInRange(messages, AegisMessage(clock, response));
          messages := messages + [AegisMessage(clock, response)];
        case Rejected(message) =>
          error := Some(message);
      }
      isLoading := false;
    }

    /** `handleSendMessage` when nothing happens while the request is pending. */
    method SendMessage(userInput: string, sendClock: nat, replyClock: nat, fetch: GeminiService.FetchOutcome)
      returns (requested: bool)
      requires Valid()
      modifies this
      ensures Valid()
      ensures !isLoading
      ensures requested <==> !SafetyCheck.CheckForCriticalKeywords(userInput)
      ensures !requested ==> error.None? && LastScore(messages) == Num(5)
      ensures !requested ==>
        messages == old(messages) + [UserMessage(sendClock, userInput), AegisMessage(replyClock, SafetyAlertResponse)]
      ensures requested && GeminiService.Outcome(fetch).Resolved? ==>
        && messages == old(messages) + [UserMessage(sendClock, userInput), AegisMessage(replyClock, GeminiService.Outcome(fetch).response)]
        && error.None?
      ensures requested && GeminiService.Outcome(fetch).Rejected? ==>
        && messages == old(messages) + [UserMessage(sendClock, userInput)]
        && error == Some(GeminiService.Outcome(fetch).message)
    {
      var awaiting := BeginSend(userInput, sendClock, replyClock);
      if !awaiting {
        SafetyAlertShowsFive(old(messages), sendClock, replyClock, userInput);
        return false;
      }
      ghost var before := messages;
      var result := Settle(fetch, replyClock);
      if result.Resolved? {
        assert before + [AegisMessage(replyClock, result.response)]
          == old(messages) + [UserMessage(sendClock, userInput), AegisMessage(replyClock, result.response)];
      }
      return true;
    }
  }
}
