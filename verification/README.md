# AIChatBot state model

A Dafny model of the in-memory core of `AIChatBot` in `bot.py`, a Telegram
bot that forwards messages to Hugging Face inference endpoints. The bot's
state is a dictionary from user id to a role-tagged conversation history,
kept to a sliding window of the last ten messages, together with the
currently selected inference mode. Around that state sit a few pure
functions: the mode switch behind the inline keyboard, the mode's display
name, the conversational payload built from the history, and how the
outcome of an inference request becomes the reply.

The model is functional. The bot is a `ChatBot.Bot` record. Each Telegram
update is a pure transition function, and a run of updates is a fold over
a sequence of events. Anything outside the process is an input:

- the result of the HTTP request (`Responses.HttpOutcome`);
- the random fallback draw (`pick`);
- Python's `str()` of non-string values and the `{x:.2%}` format (`Json.Show`);
- whether sending a reply to Telegram raised.

Modules, one per part of the bot:

- `Outcomes`: Python's `None`-or-value, and a call that returns or raises.
- `Seqs`: `xs[-k:]` and its window lemmas.
- `Conversation`: the store: get-or-create, append with the window, clear.
- `Modes`: `HUGGINGFACE_APIS`, the mode switch, display names.
- `PyText`: `str.strip()` (Python's exact whitespace set) and `str.lower()`.
- `Json`: decoded JSON, Python truthiness, `value[0]` and `value[key]`.
- `Responses`: `format_response`, `call_huggingface_api`, fallback replies.
- `Chat`: the casual-chat payload projection and reply handling.
- `ChatBot`: the bot record, the handlers' state effects, and invariants over runs.

The mode is kept as a string, as in the source. That it is always one of
the six keys of `HUGGINGFACE_APIS` is proved as an invariant of every run
from the initial state (`ChatBot.ReachableIsValid`). The invariant also
shows that the unguarded lookup `HUGGINGFACE_APIS[self.current_api]`
(bot.py:277) never raises in a reachable state. So a history is reset only
when sending a reply fails (`ChatBot.ResetOnlyOnSendFailure`).

Other bot variants in the repository seed each history with a system
prompt, keep it when trimming, persist histories and a user registry to
JSON, and offer an admin broadcast. `bot.py` does none of this. It drops
the oldest entries unconditionally, and the model follows `bot.py`.

## Model

| member | source | states |
|---|---|---|
| `Conversation.GetHistory` | bot.py:41-45 | An absent user gets an empty history and nobody else changes. An existing history is returned, and the store kept, unchanged. |
| `Conversation.AddToConversation` | bot.py:47-55 | The history holds at most 10 entries and has length min(10, n+1). Its last entry is the new message, tagged assistant exactly when it comes from the bot. It equals the last 10 entries of the old history plus the message. Other users are untouched. |
| `Conversation.ClearChat` | bot.py:167-171 | An existing history becomes empty. A user without a history does not get one, and other users are untouched. |
| `Conversation.OperationsKeepBounded` | bot.py:47-55 | Appending and clearing keep every history within the window. |
| `Conversation.AddAllIsWindow` | bot.py:47-55 | After any run of appends, the history is exactly the last 10 of everything appended, in order: the oldest entries are dropped first. |
| `Conversation.AddAllKeepsOthers` | bot.py:47-55 | A run of appends for one user leaves every other user's history unchanged. |
| `Modes.KnownModes` | bot.py:23-34 | The known modes are exactly the six keys of the endpoint table, and the initial mode is one of them. |
| `Modes.SwitchMode` | bot.py:136-138 | The mode becomes the callback data exactly when that data is a known key, and otherwise stays as it was. A known mode stays known. |
| `Modes.ReplaceUnderscores` | bot.py:157 | Each underscore becomes a space. Every other character and the length are kept. |
| `Modes.DisplayName` | bot.py:147-157 | A key in the table gets its fixed name. Any other key gets the title-cased key with underscores turned into spaces. |
| `Modes.DisplayNamesCoverModes` | bot.py:147-157 | The display table has exactly the endpoint table's keys, so a known mode always gets its table entry. |
| `PyText.Strip` | bot.py:181 | The result is a contiguous slice of the text with only whitespace before and after it. It is empty, or it starts and ends with a non-whitespace character, so all leading and trailing whitespace is gone. |
| `PyText.BlankIffAllSpace` | bot.py:181-183 | A message is rejected as blank exactly when every character is whitespace. |
| `PyText.Lower` | bot.py:322 | Lower-casing keeps the length and maps each character independently. |
| `Responses.Fallback` | bot.py:261-273 | The fallback reply is always one of the seven fixed lines. |
| `Responses.AsReply` | bot.py:198 | A returned JSON value is a truthy reply exactly when Python's `bool` of it is true. A string is the reply itself. |
| `Responses.FirstMaxIndex` | bot.py:316 | The chosen score is at least every score, and strictly above every score before it, so ties go to the first, as with Python's `max`. |
| `Responses.Scores` | bot.py:316 | Scoring succeeds exactly when every entry is an object with a numeric `score`, and it yields those scores in order. |
| `Responses.PickBest` | bot.py:316 | The pick raises unless `api_response[0]` is a non-empty list of scored entries. It returns the first entry whose score is at least every other. |
| `Responses.SentimentEmojiCases` | bot.py:317-322 | The emoji depends only on the lower-cased label. A face other than the default appears exactly for positive, negative or neutral. |
| `Responses.FormatResponse` | bot.py:303-325 | Per mode, the reply exists exactly when the response has the required field, and it is that field in the fixed template. Sentiment replies use the first highest-scoring entry. Chat or unknown modes render the whole response. |
| `Responses.CallApi` | bot.py:275-301 | An unknown mode raises. Status 200 gives the formatted response, or None when the body does not parse or has the wrong shape. 503 gives the waking-up line and a timeout the thinking-too-hard line. Any other status or failure gives None. |
| `Responses.CallApiTruthy` | bot.py:289-301 | A usable reply comes only from a well-shaped 200, a 503 or a timeout. The last two always give one. |
| `Responses.SentimentExample` | bot.py:315-323 | For a canned sentiment response, the higher score wins, the first of two tied scores wins, and an upper-case label still gets its face. |
| `Chat.ContentsOfConcat` | bot.py:229-230 | Filtering the history by role distributes over concatenation and keeps order. |
| `Chat.ContentsPartition` | bot.py:229-230 | Every history entry is in exactly one of the user and assistant lists. |
| `Chat.BuildPayload` | bot.py:226-231 | `past_user_inputs` holds the last min(3, n) user contents in order, `generated_responses` likewise for assistant contents, and `text` is the message. |
| `Chat.PayloadEndsWithCurrentInput` | bot.py:189-229 | The message is stored before the payload is built, so the last past user input is always the message being answered. |
| `Chat.ChatReply` | bot.py:239-259 | A 200 object answers with its `generated_text`, or with the not-sure line when that field is missing. Timeouts, failures, bad status codes and unparsable bodies answer with a fallback line. |
| `Chat.ChatReplyTruthy` | bot.py:247-259 | The chat path always yields a usable reply, unless the model returns an empty or null `generated_text`. |
| `ChatBot.Init` | bot.py:33-39 | The bot starts with no histories, in casual-chat mode, in a valid state. |
| `ChatBot.Start` | bot.py:57-80 | `/start` creates the history if needed. If sending the welcome text raises, it stops there with no greeting. Otherwise it records the greeting as an assistant turn, windowed. The mode and other users are unchanged. |
| `ChatBot.Dispatch` | bot.py:192-196 | A message goes to the chat path exactly in casual-chat mode. |
| `ChatBot.Respond` | bot.py:191-196 | In casual chat the response is the chat reply. Otherwise it is the inference call, which raises exactly for an unknown mode. |
| `ChatBot.HandleMessage` | bot.py:176-211 | A blank message changes nothing. Otherwise the user's turn is recorded, then the reply only when it is truthy, both windowed together. Any exception empties that user's history. The mode and other users are never changed. |
| `ChatBot.ButtonHandler` | bot.py:131-145 | A button press leaves histories alone. If acknowledging the press raises, nothing changes. Otherwise the mode follows the button exactly when its data is a known key, and otherwise nothing changes. |
| `ChatBot.ClearChatHandler` | bot.py:167-171 | `/clear` empties an existing history and changes nothing for a user without one. The mode and other users are unchanged. |
| `ChatBot.CurrentModeName` | bot.py:159-161 | In a valid state `/current` always shows the fixed table name of the mode. |
| `ChatBot.HandleMessageKeepsValid` | bot.py:176-211 | Handling a message keeps the mode known and every history within the window. |
| `ChatBot.StartKeepsValid` | bot.py:57-80 | `/start` keeps the state valid. |
| `ChatBot.StepKeepsValid` | bot.py:131-211 | Every handler keeps the state valid. |
| `ChatBot.RunKeepsValid` | bot.py:32-55 | Any run of updates from a valid state ends in a valid state. |
| `ChatBot.ReachableIsValid` | bot.py:34 | Every state reachable from start-up has a known mode and histories of at most 10 entries. |
| `ChatBot.ResetOnlyOnSendFailure` | bot.py:206-210 | In a reachable state only a failed send can trigger the reset. Otherwise a handled message leaves a non-empty history. |
| `ChatBot.StepLeavesOthersAlone` | bot.py:57-211 | One update that is not from a user neither changes that user's history nor creates one. |
| `ChatBot.OthersLeaveHistoryAlone` | bot.py:167-211 | Any run of updates that are not from a user leaves that user's history, or its absence, exactly as it was. |

## Left out

- Telegram I/O is not modelled: reply texts, Markdown, inline keyboards, `answer()` and `edit_message_text`. `/help`, `/modes`, `/switch` and `/current` only reply, so they are one no-op `Query` event.
- The typing action `send_action` is not modelled. If it raised, the exception would escape before any state change, so the state would be unchanged.
- Failures of the other Telegram sends are modelled only where they change state: the welcome text in `/start` (`welcomeFails`), `query.answer()` in `button_handler` (`answerFails`) and the replies in `handle_message` (`replyFails`). The sends that follow the last state change (the greeting line, `edit_message_text`, the `/clear` confirmation) cannot affect the state.
- `requests.post` is not modelled: transport, headers, the 30-second timeout and JSON decoding. The request's result is the `HttpOutcome` input, and a body that does not parse is `None`.
- The randomness of `get_fallback_response` is left to the caller: the draw from `random.choice` is the `pick` parameter.
- Floating point is not modelled. Scores are reals with their exact order, with no rounding and no NaN. `{score:.2%}` and Python's `str()` of non-string values are the abstract `Json.Show` functions.
- `str.title()` in the display-name fallback is the `titleCase` parameter. It depends on Unicode casing, and the fallback is never reached for a known mode.
- `PyText.Lower`: lower-cases ASCII letters only. This is exact for the sentiment lookup, because no other character lowers to a lone ASCII letter of "positive", "negative" or "neutral".
- `Responses.AsReply`: a non-string `generated_text` is stored and sent as its `str()` rendering. Python keeps the raw object. The truthiness that decides whether it is recorded is exact.
- The unused `context` string (bot.py:221-224) is not modelled.
- The fixed `"parameters"` object of the chat payload is not modelled.
- Logging, environment and `.env` loading, and `main()` with its handler registration and polling are not modelled.
