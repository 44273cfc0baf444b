/** How `AIChatBot` turns the outcome of an inference request into a reply:
    `format_response`, `call_huggingface_api` and the outcome handling of
    `generate_chat_response` (bot.py). The request itself is not modelled;
    its outcome is an input. */
module Responses {
  import opened Outcomes
  import opened Json
  import opened PyText
  import opened Modes

  /** What `requests.post` produced: a response with its status code and,
      when the body parses, its decoded JSON (`None` when `response.json()`
      would raise); a `requests.exceptions.Timeout`; or any other exception. */
  datatype HttpOutcome =
    | HttpResponse(status: int, body: Option<Json>)
    | TimedOut
    | RequestFailed

  const Ok: int := 200
  const ServiceUnavailable: int := 503

  const WakingUp: string := "⚠️ I'm still waking up! Please try again in a few seconds. 😴"
  const ThinkingTooHard: string := "⏰ I'm thinking too hard! Let me try that again. 😅"
  const NotSure: string := "I'm not sure what to say! Tell me more about that. 😊"

  /** The replies `get_fallback_response` picks from. */
  const Fallbacks: seq<string> := [
    "That's interesting! Tell me more about that. 😊",
    "I'd love to hear more about what you're thinking!",
    "That's a great point! What else is on your mind?",
    "I'm listening! Please continue. 👂",
    "Fascinating! I'd like to know more about that.",
    "You've got my attention! What else would you like to share?",
    "I'm really enjoying our conversation! What's next? 😄"
  ]

  /** `get_fallback_response`: `random.choice(fallbacks)`, with the random
      draw given as `pick`. */
  function Fallback(pick: nat): (r: string)
    ensures r in Fallbacks
  {
    Fallbacks[pick % |Fallbacks|]
  }

  /** A reply as the handler sees it: a string or `None`. */
  type Reply = Option<string>

  /** `if response:` in `handle_message`. */
  predicate ReplyTruthy(r: Reply) {
    r.Some? && r.value != []
  }

  /** A decoded JSON value handed back as the reply. A string is the reply
      itself; any other value keeps its Python truthiness and is carried as
      its `str()` rendering. */
  function AsReply(j: Json, show: Show): (r: Reply)
    ensures ReplyTruthy(r) <==> Truthy(j)
    ensures j.JStr? ==> r == Some(j.s)
  {
    if j.JStr? then Some(j.s)
    else if Truthy(j) then Some(show.str(j))
    else None
  }

  /** The index Python's `max` returns: it scans left to right and moves
      only on a strictly greater score, so on ties the first maximal entry
      wins. */
  function FirstMaxIndex(scores: seq<real>): (i: nat)
    requires scores != []
    ensures i < |scores|
    ensures forall j :: 0 <= j < |scores| ==> scores[j] <= scores[i]
    ensures forall j :: 0 <= j < i ==> scores[j] < scores[i]
  {
    if |scores| == 1 then 0
    else
      var best := FirstMaxIndex(scores[..|scores| - 1]);
      if scores[|scores| - 1] > scores[best] then |scores| - 1 else best
  }

  /** `x['score']` for every entry, as `max(..., key=lambda x: x['score'])`
      evaluates it. An entry that is not an object with a numeric score
      raises: either its lookup fails, or comparing it fails, or (when no
      comparison happens) formatting it as a percentage fails later. */
  function Scores(entries: seq<Json>): (r: Attempt<seq<real>>)
    ensures r.Returned? <==> forall k :: 0 <= k < |entries| ==> HasScore(entries[k])
    ensures r.Returned? ==> |r.value| == |entries|
    ensures r.Returned? ==> forall k :: 0 <= k < |entries| ==> r.value[k] == ScoreOf(entries[k])
  {
    if entries == [] then Returned([])
    else
      var head := entries[0];
      if !HasScore(head) then Raised
      else
        var rest := Scores(entries[1..]);
        if rest.Raised? then
          assert !HasScore(entries[1..][IndexOfUnscored(entries[1..])]);
          Raised
        else Returned([ScoreOf(head)] + rest.value)
  }

  /** An entry with a numeric `"score"`. */
  predicate HasScore(entry: Json) {
    entry.JObj? && "score" in entry.fields && Number(entry.fields["score"]).Some?
  }

  function ScoreOf(entry: Json): real
    requires HasScore(entry)
  {
    Number(entry.fields["score"]).value
  }

  /** The position of some entry without a numeric score, when there is one. */
  function IndexOfUnscored(entries: seq<Json>): (k: nat)
    requires exists k :: 0 <= k < |entries| && !HasScore(entries[k])
    ensures k < |entries| && !HasScore(entries[k])
  {
    if !HasScore(entries[0]) then 0
    else
      assert exists k :: 0 <= k < |entries[1..]| && !HasScore(entries[1..][k]) by {
        var k :| 0 <= k < |entries| && !HasScore(entries[k]);
        assert entries[1..][k - 1] == entries[k];
      }
      1 + IndexOfUnscored(entries[1..])
  }

  /** The entry `max(api_response[0], key=lambda x: x['score'])` returns:
      raises unless the first element is a non-empty list of entries with
      numeric scores; otherwise the first entry whose score is at least
      every other score. */
  function PickBest(resp: Json): (r: Attempt<nat>)
    ensures r.Returned? <==>
      && First(resp).Returned? && First(resp).value.JArr?
      && First(resp).value.items != []
      && forall k :: 0 <= k < |First(resp).value.items| ==> HasScore(First(resp).value.items[k])
    ensures r.Returned? ==>
      var entries := First(resp).value.items;
      && r.value < |entries|
      && (forall j :: 0 <= j < |entries| ==> ScoreOf(entries[j]) <= ScoreOf(entries[r.value]))
      && (forall j :: 0 <= j < r.value ==> ScoreOf(entries[j]) < ScoreOf(entries[r.value]))
  {
    var list :- First(resp);
    if !list.JArr? || list.items == [] then Raised
    else
      var scores :- Scores(list.items);
      Returned(FirstMaxIndex(scores))
  }

  /** The `sentiment_emoji` lookup on the lower-cased label, with its
      default. */
  function SentimentEmoji(tag: string): string {
    var key := Lower(tag);
    if key == "positive" then "😊"
    else if key == "negative" then "😔"
    else if key == "neutral" then "😐"
    else "🤔"
  }

  /** The label lookup ignores ASCII case, and only the three known labels
      get a face other than the default. */
  lemma SentimentEmojiCases(tag: string)
    ensures SentimentEmoji(tag) == SentimentEmoji(Lower(tag))
    ensures SentimentEmoji(tag) != "🤔" <==>
      Lower(tag) == "positive" || Lower(tag) == "negative" || Lower(tag) == "neutral"
  {
    assert Lower(Lower(tag)) == Lower(tag);
  }

  /** The first element's `key` field, when `value[0][key]` does not raise. */
  predicate HasFirstField(resp: Json, key: string) {
    resp.JArr? && resp.items != [] && resp.items[0].JObj? && key in resp.items[0].fields
  }

  function FirstField(resp: Json, key: string): Json
    requires HasFirstField(resp, key)
  {
    resp.items[0].fields[key]
  }

  /** An entry whose `"label"` is a string, so that `.lower()` applies. */
  predicate HasLabel(entry: Json) {
    entry.JObj? && "label" in entry.fields && entry.fields["label"].JStr?
  }

  /** `format_response` for the bot's current mode. `Raised` stands for the
      exceptions a response of the wrong shape provokes. */
  function FormatResponse(mode: string, resp: Json, show: Show): (r: Attempt<Reply>)
    ensures mode == TextGeneration ==>
      && (r.Returned? <==> HasFirstField(resp, "generated_text"))
      && (r.Returned? ==> r.value == AsReply(FirstField(resp, "generated_text"), show))
    ensures mode == TextClassification ==>
      && (r.Returned? <==> HasFirstField(resp, "label") && HasFirstField(resp, "score")
                           && Number(FirstField(resp, "score")).Some?)
      && (r.Returned? ==> r.value == Some("I think this text is: " + Str(FirstField(resp, "label"), show)
                                          + "\nConfidence: " + show.percent(Number(FirstField(resp, "score")).value) + " 🎯"))
    ensures mode == Summarization ==>
      && (r.Returned? <==> HasFirstField(resp, "summary_text"))
      && (r.Returned? ==> r.value == Some("📋 Here's my summary:\n\n" + Str(FirstField(resp, "summary_text"), show)))
    ensures mode == Translation ==>
      && (r.Returned? <==> HasFirstField(resp, "translation_text"))
      && (r.Returned? ==> r.value == Some("🌐 Translation:\n" + Str(FirstField(resp, "translation_text"), show)))
    ensures mode == SentimentAnalysis ==>
      && (r.Returned? <==> PickBest(resp).Returned? && HasLabel(First(resp).value.items[PickBest(resp).value]))
      && (r.Returned? ==>
            var best := First(resp).value.items[PickBest(resp).value];
            var tag := best.fields["label"].s;
            r.value == Some("Emotion: " + tag + " " + SentimentEmoji(tag) + "\nConfidence: " + show.percent(ScoreOf(best))))
    ensures !IsKnown(mode) || mode == CasualChat ==> r == Returned(Some(Str(resp, show)))
  {
    if mode == TextGeneration then
      var first :- First(resp);
      var text :- Field(first, "generated_text");
      Returned(AsReply(text, show))
    else if mode == TextClassification then
      var first :- First(resp);
      var tag :- Field(first, "label");
      var score :- Field(first, "score");
      if Number(score).None? then Raised
      else Returned(Some("I think this text is: " + Str(tag, show) + "\nConfidence: " + show.percent(Number(score).value) + " 🎯"))
    else if mode == Summarization then
      var first :- First(resp);
      var summary :- Field(first, "summary_text");
      Returned(Some("📋 Here's my summary:\n\n" + Str(summary, show)))
    else if mode == Translation then
      var first :- First(resp);
      var translation :- Field(first, "translation_text");
      Returned(Some("🌐 Translation:\n" + Str(translation, show)))
    else if mode == SentimentAnalysis then
      var i :- PickBest(resp);
      var best := First(resp).value.items[i];
      var tag :- Field(best, "label");
      if !tag.JStr? then Raised
      else Returned(Some("Emotion: " + tag.s + " " + SentimentEmoji(tag.s) + "\nConfidence: " + show.percent(ScoreOf(best))))
    else
      Returned(Some(Str(resp, show)))
  }

  /** `call_huggingface_api`. The endpoint lookup `HUGGINGFACE_APIS[mode]`
      sits outside the `try`, so an unknown mode raises out of the call;
      everything after it is caught and becomes `None`. */
  function CallApi(mode: string, outcome: HttpOutcome, show: Show): (r: Attempt<Reply>)
    ensures r.Raised? <==> !IsKnown(mode)
    ensures IsKnown(mode) ==> match outcome
      case HttpResponse(status, body) =>
        if status == Ok then
          (body.None? ==> r.value == None)
          && (body.Some? ==> r.value == FormatResponse(mode, body.value, show).Recover(None))
        else if status == ServiceUnavailable then r.value == Some(WakingUp)
        else r.value == None
      case TimedOut => r.value == Some(ThinkingTooHard)
      case RequestFailed => r.value == None
  {
    if mode !in HuggingFaceApis then Raised
    else
      match outcome
      case HttpResponse(status, body) =>
        if status == Ok then
          if body.None? then Returned(None)
          else Returned(FormatResponse(mode, body.value, show).Recover(None))
        else if status == ServiceUnavailable then Returned(Some(WakingUp))
        else Returned(None)
      case TimedOut => Returned(Some(ThinkingTooHard))
      case RequestFailed => Returned(None)
  }

  /** Only three outcomes of `call_huggingface_api` give the user a reply:
      a 200 whose body has the mode's shape, a 503, and a timeout. */
  lemma CallApiTruthy(mode: string, outcome: HttpOutcome, show: Show)
    requires IsKnown(mode)
    ensures ReplyTruthy(CallApi(mode, outcome, show).value) ==>
      || (outcome.HttpResponse? && outcome.status == Ok && outcome.body.Some?
          && FormatResponse(mode, outcome.body.value, show).Returned?)
      || (outcome.HttpResponse? && outcome.status == ServiceUnavailable)
      || outcome.TimedOut?
    ensures outcome.HttpResponse? && outcome.status == ServiceUnavailable ==>
      ReplyTruthy(CallApi(mode, outcome, show).value)
    ensures outcome.TimedOut? ==> ReplyTruthy(CallApi(mode, outcome, show).value)
  {
  }

  /** `"POSITIVE".lower()` is one of the known labels. */
  lemma PositiveUpperCase()
    ensures SentimentEmoji("POSITIVE") == "😊"
  {
    var lowered := Lower("POSITIVE");
    forall i | 0 <= i < 8
      ensures lowered[i] == "positive"[i]
    {
      assert lowered[i] == LowerChar("POSITIVE"[i]);
    }
    assert lowered == "positive";
  }

  /** A canned sentiment response: the highest score wins, the first of two
      tied scores wins, and the label is looked up case-insensitively. */
  lemma SentimentExample(show: Show)
    ensures var neg := JObj(map["label" := JStr("negative"), "score" := JNum(0.1)]);
      var pos := JObj(map["label" := JStr("POSITIVE"), "score" := JNum(0.45)]);
      var neu := JObj(map["label" := JStr("neutral"), "score" := JNum(0.45)]);
      FormatResponse(SentimentAnalysis, JArr([JArr([neg, pos, neu])]), show)
        == Returned(Some("Emotion: " + "POSITIVE" + " " + "😊" + "\nConfidence: " + show.percent(0.45)))
  {
    var neg := JObj(map["label" := JStr("negative"), "score" := JNum(0.1)]);
    var pos := JObj(map["label" := JStr("POSITIVE"), "score" := JNum(0.45)]);
    var neu := JObj(map["label" := JStr("neutral"), "score" := JNum(0.45)]);
    var resp := JArr([JArr([neg, pos, neu])]);
    var entries := [neg, pos, neu];
    assert First(resp) == Returned(JArr(entries));
    assert HasScore(neg) && HasScore(pos) && HasScore(neu);
    assert ScoreOf(neg) == 0.1 && ScoreOf(pos) == 0.45 && ScoreOf(neu) == 0.45;
    var best := PickBest(resp);
    assert best.Returned?;
    var i := best.value;
    assert ScoreOf(entries[1]) <= ScoreOf(entries[i]);
    assert i == 1;
    assert HasLabel(pos);
    PositiveUpperCase();
    var r := FormatResponse(SentimentAnalysis, resp, show);
    assert r.Returned?;
    assert First(resp).value.items[PickBest(resp).value] == pos;
    assert pos.fields["label"].s == "POSITIVE";
    assert r.value == Some("Emotion: " + "POSITIVE" + " " + SentimentEmoji("POSITIVE") + "\nConfidence: " + show.percent(ScoreOf(pos)));
  }
}
