/** The inference modes of `AIChatBot` (bot.py): the endpoint table, the
    mode switch behind the inline keyboard, and the display names. */
module Modes {

  const CasualChat: string := "casual_chat"
  const TextGeneration: string := "text_generation"
  const TextClassification: string := "text_classification"
  const Summarization: string := "summarization"
  const Translation: string := "translation"
  const SentimentAnalysis: string := "sentiment_analysis"

  /** `HUGGINGFACE_APIS`: mode key to inference endpoint. */
  const HuggingFaceApis: map<string, string> := map[
    CasualChat := "https://api-inference.huggingface.co/models/microsoft/DialoGPT-large",
    TextGeneration := "https://api-inference.huggingface.co/models/gpt2",
    TextClassification := "https://api-inference.huggingface.co/models/distilbert-base-uncased-finetuned-sst-2-english",
    Summarization := "https://api-inference.huggingface.co/models/facebook/bart-large-cnn",
    Translation := "https://api-inference.huggingface.co/models/Helsinki-NLP/opus-mt-en-fr",
    SentimentAnalysis := "https://api-inference.huggingface.co/models/cardiffnlp/twitter-roberta-base-sentiment-latest"
  ]

  /** The `names` table of `get_mode_display_name`. */
  const DisplayNames: map<string, string> := map[
    CasualChat := "💬 Casual Chat",
    TextGeneration := "📝 Text Generation",
    TextClassification := "🏷️ Text Classification",
    Summarization := "📋 Summarization",
    Translation := "🌐 Translation",
    SentimentAnalysis := "😊 Sentiment Analysis"
  ]

  /** A mode the bot knows: a key of the endpoint table. */
  predicate IsKnown(key: string) {
    key in HuggingFaceApis
  }

  /** The mode the bot starts in (`__init__`). */
  const InitialMode: string := CasualChat

  /** The six mode keys, spelled out. */
  lemma KnownModes(key: string)
    ensures IsKnown(key) <==>
      key == CasualChat || key == TextGeneration || key == TextClassification ||
      key == Summarization || key == Translation || key == SentimentAnalysis
    ensures IsKnown(InitialMode)
  {
  }

  /** The mode update of `button_handler`: the callback data becomes the
      current mode when it is a known key; any other data leaves the mode
      as it was. A known mode therefore stays known. */
  function SwitchMode(current: string, callbackData: string): (r: string)
    ensures IsKnown(callbackData) ==> r == callbackData
    ensures !IsKnown(callbackData) ==> r == current
    ensures IsKnown(current) ==> IsKnown(r)
    ensures r != current ==> IsKnown(r) && r == callbackData
  {
    if callbackData in HuggingFaceApis then callbackData else current
  }

  /** `mode_key.replace('_', ' ')`: every underscore becomes a space. */
  function ReplaceUnderscores(key: string): (r: string)
    ensures |r| == |key|
    ensures forall i :: 0 <= i < |key| ==> r[i] == (if key[i] == '_' then ' ' else key[i])
  {
    if key == [] then []
    else [if key[0] == '_' then ' ' else key[0]] + ReplaceUnderscores(key[1..])
  }

  /** `get_mode_display_name`: the table entry for a known mode, otherwise
      the key with underscores turned to spaces and passed through
      `titleCase`, which stands for Python's `str.title`. */
  function DisplayName(key: string, titleCase: string -> string): (r: string)
    ensures key in DisplayNames ==> r == DisplayNames[key]
    ensures key !in DisplayNames ==> r == titleCase(ReplaceUnderscores(key))
  {
    if key in DisplayNames then DisplayNames[key] else titleCase(ReplaceUnderscores(key))
  }

  /** Every known mode has a display name, and only known modes do, so the
      current mode (always known) is always shown by its fixed table entry
      and never by the title-case fallback. */
  lemma DisplayNamesCoverModes(key: string, titleCase: string -> string)
    ensures key in DisplayNames <==> IsKnown(key)
    ensures IsKnown(key) ==> DisplayName(key, titleCase) == DisplayNames[key]
  {
  }
}
