/** The casual-chat path of `AIChatBot` (`generate_chat_response`, bot.py):
    the history projection sent as the conversational payload, and how the
    outcome of the request becomes a reply. */
module Chat {
  import opened Outcomes
  import opened Seqs
  import opened Json
  import opened Conversation
  import opened Responses

  /** How many earlier turns of each side the payload carries. */
  const PastTurns: nat := 3

  /** The `"inputs"` object of the conversational payload. The fixed
      generation parameters and the `"parameters"` object are not modelled. */
  datatype ChatPayload = ChatPayload(text: string, pastUserInputs: seq<string>, generatedResponses: seq<string>)

  /** `[msg["content"] for msg in history if msg["role"] == role]`. */
  function ContentsOf(history: seq<Message>, role: Role): (r: seq<string>)
    ensures |r| <= |history|
  {
    if history == [] then []
    else
      var last := history[|history| - 1];
      ContentsOf(history[..|history| - 1], role) + (if last.role == role then [last.content] else [])
  }

  /** Filtering is compositional: the contents of a concatenation are the
      contents of each part, in order. */
  lemma {:induction false} ContentsOfConcat(a: seq<Message>, b: seq<Message>, role: Role)
    ensures ContentsOf(a + b, role) == ContentsOf(a, role) + ContentsOf(b, role)
    decreases |b|
  {
    if b != [] {
      var init := b[..|b| - 1];
      assert (a + b)[..|a + b| - 1] == a + init;
      ContentsOfConcat(a, init, role);
    } else {
      assert a + b == a;
    }
  }

  /** Every entry lands in exactly one of the two lists. */
  lemma {:induction false} ContentsPartition(history: seq<Message>)
    ensures |ContentsOf(history, User)| + |ContentsOf(history, Assistant)| == |history|
    decreases |history|
  {
    if history != [] {
      ContentsPartition(history[..|history| - 1]);
    }
  }

  /** The payload `generate_chat_response` builds from the user's history
      (which already ends with the message being answered). */
  function BuildPayload(history: seq<Message>, text: string): (p: ChatPayload)
    ensures p.text == text
    ensures |p.pastUserInputs| == Min(PastTurns, |ContentsOf(history, User)|)
    ensures |p.generatedResponses| == Min(PastTurns, |ContentsOf(history, Assistant)|)
    ensures forall i :: 0 <= i < |p.pastUserInputs| ==>
      p.pastUserInputs[i] == ContentsOf(history, User)[|ContentsOf(history, User)| - |p.pastUserInputs| + i]
    ensures forall i :: 0 <= i < |p.generatedResponses| ==>
      p.generatedResponses[i] == ContentsOf(history, Assistant)[|ContentsOf(history, Assistant)| - |p.generatedResponses| + i]
  {
    ChatPayload(text, TakeLast(ContentsOf(history, User), PastTurns), TakeLast(ContentsOf(history, Assistant), PastTurns))
  }

  /** Because `handle_message` stores the user's message before dispatching,
      the payload's last past user input is always the message being
      answered, and the assistant side is unchanged by that append. */
  lemma PayloadEndsWithCurrentInput(store: Store, uid: UserId, text: string)
    ensures var history := AddToConversation(store, uid, text, false)[uid];
      var p := BuildPayload(history, text);
      && p.pastUserInputs != []
      && p.pastUserInputs[|p.pastUserInputs| - 1] == text
  {
    var history := AddToConversation(store, uid, text, false)[uid];
    assert history[|history| - 1] == Message(User, text);
  }

  /** The outcome handling of `generate_chat_response`: a 200 response whose
      JSON holds `generated_text` answers with it, one without it answers
      with the "not sure" line, and every other outcome, including the
      `TypeError`s that odd JSON shapes provoke inside the `try`, answers
      with a fallback line. `pick` is the random draw. */
  function ChatReply(outcome: HttpOutcome, pick: nat, show: Show): (r: Reply)
    ensures outcome.HttpResponse? && outcome.status == Ok && outcome.body.Some?
            && outcome.body.value.JObj? ==>
      r == (if "generated_text" in outcome.body.value.fields
            then AsReply(outcome.body.value.fields["generated_text"], show)
            else Some(NotSure))
    ensures outcome.TimedOut? || outcome.RequestFailed? ==> r == Some(Fallback(pick))
    ensures outcome.HttpResponse? && (outcome.status != Ok || outcome.body.None?) ==> r == Some(Fallback(pick))
    ensures r.None? ==> outcome.HttpResponse? && outcome.body.Some? && outcome.body.value.JObj?
  {
    match outcome
    case HttpResponse(status, body) =>
      if status != Ok || body.None? then Some(Fallback(pick))
      else (
        match body.value
        case JObj(fields) =>
          if "generated_text" in fields then AsReply(fields["generated_text"], show) else Some(NotSure)
        case JArr(items) =>
          // `'generated_text' in result` tests list membership; indexing a list by a string then raises
          if JStr("generated_text") in items then Some(Fallback(pick)) else Some(NotSure)
        case JStr(s) =>
          // substring test; indexing a string by a string then raises
          if Contains(s, "generated_text") then Some(Fallback(pick)) else Some(NotSure)
        case _ =>
          // `in` on a number, boolean or None raises
          Some(Fallback(pick)))
    case TimedOut => Some(Fallback(pick))
    case RequestFailed => Some(Fallback(pick))
  }

  /** Python's `needle in haystack` on strings. */
  predicate Contains(haystack: string, needle: string)
    decreases |haystack|
  {
    |needle| <= |haystack| && (haystack[..|needle|] == needle || Contains(haystack[1..], needle))
  }

  /** The chat path never leaves the user without a reply line, except when
      the model itself answers with an empty or null `generated_text`. */
  lemma ChatReplyTruthy(outcome: HttpOutcome, pick: nat, show: Show)
    ensures !ReplyTruthy(ChatReply(outcome, pick, show)) ==>
      && outcome.HttpResponse? && outcome.status == Ok && outcome.body.Some?
      && outcome.body.value.JObj? && "generated_text" in outcome.body.value.fields
      && !Truthy(outcome.body.value.fields["generated_text"])
  {
  }
}
