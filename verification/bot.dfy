/** The in-memory state of `AIChatBot` (bot.py) and how each Telegram
    update changes it. Replies, keyboards and the typing action are not
    modelled; the state they leave behind is. */
module ChatBot {
  import opened Outcomes
  import opened Seqs
  import opened PyText
  import opened Json
  import opened Conversation
  import opened Modes
  import opened Responses
  import opened Chat

  /** `self.conversations` and `self.current_api`. */
  datatype Bot = Bot(conversations: Store, currentApi: string)

  /** `AIChatBot()`: no histories, casual chat. */
  function Init(): (b: Bot)
    ensures b.conversations == map[] && b.currentApi == CasualChat
    ensures Valid(b)
  {
    Bot(map[], InitialMode)
  }

  /** What holds of every state the bot can reach: the mode is a key of the
      endpoint table and no history exceeds the window. */
  predicate Valid(b: Bot) {
    IsKnown(b.currentApi) && Bounded(b.conversations)
  }

  /** Everything outside the bot that one `handle_message` depends on: the
      outcome of the inference request, the random fallback draw, the
      renderings of non-string values, and whether sending the reply to
      Telegram raised. */
  datatype World = World(http: HttpOutcome, pick: nat, show: Show, replyFails: bool)

  /** The first line `start` sends, which it also records as a bot turn. */
  const Greeting: string := "Hey there! 👋 How's your day going? What would you like to chat about? 😄"

  /** The state effect of `start`: make sure the user has a history, then
      send the welcome text and record the greeting as an assistant turn.
      When sending the welcome text raises (`welcomeFails`), the exception
      leaves the handler after the history was created and before the
      greeting was recorded. */
  function Start(b: Bot, uid: UserId, welcomeFails: bool): (r: Bot)
    ensures r.currentApi == b.currentApi
    ensures r.conversations.Keys == b.conversations.Keys + {uid}
    ensures forall u :: u in b.conversations && u != uid ==> r.conversations[u] == b.conversations[u]
    ensures welcomeFails ==> r.conversations[uid] == Prior(b.conversations, uid)
    ensures !welcomeFails ==>
      r.conversations[uid] == TakeLast(Prior(b.conversations, uid) + [Message(Assistant, Greeting)], MaxHistory)
  {
    var (created, _) := GetHistory(b.conversations, uid);
    assert Prior(created, uid) == Prior(b.conversations, uid);
    if welcomeFails then b.(conversations := created)
    else b.(conversations := AddToConversation(created, uid, Greeting, true))
  }

  /** Which request `handle_message` makes. */
  datatype Path = ChatPath | ApiPath

  /** The dispatch in `handle_message`: the conversational endpoint exactly
      in casual-chat mode, the mode's own endpoint otherwise. */
  function Dispatch(mode: string): (p: Path)
    ensures p == ChatPath <==> mode == CasualChat
  {
    if mode == CasualChat then ChatPath else ApiPath
  }

  /** The `response` computed inside `handle_message`'s `try`. */
  function Respond(mode: string, world: World): (r: Attempt<Reply>)
    ensures Dispatch(mode) == ChatPath ==> r == Returned(ChatReply(world.http, world.pick, world.show))
    ensures Dispatch(mode) == ApiPath ==> r == CallApi(mode, world.http, world.show)
    ensures r.Raised? <==> !IsKnown(mode)
  {
    match Dispatch(mode)
    case ChatPath => Returned(ChatReply(world.http, world.pick, world.show))
    case ApiPath => CallApi(mode, world.http, world.show)
  }

  /** Whether an exception reached `handle_message`'s `except`: the endpoint
      lookup failed, or sending the reply (or the apology) raised. */
  predicate Failed(mode: string, world: World) {
    Respond(mode, world).Raised? || world.replyFails
  }

  /** The state effect of `handle_message`. A blank message changes nothing.
      Otherwise the user's message is recorded before the request; a truthy
      reply is recorded after it; and an exception anywhere in the `try`
      leaves the user with an empty history. */
  function HandleMessage(b: Bot, uid: UserId, text: string, world: World): (r: Bot)
    ensures IsBlank(text) ==> r == b
    ensures r.currentApi == b.currentApi
    ensures !IsBlank(text) ==> r.conversations.Keys == b.conversations.Keys + {uid}
    ensures forall u :: u in b.conversations && u != uid ==> u in r.conversations && r.conversations[u] == b.conversations[u]
    ensures !IsBlank(text) && Failed(b.currentApi, world) ==> r.conversations[uid] == []
    ensures !IsBlank(text) && !Failed(b.currentApi, world) ==>
      var reply := Respond(b.currentApi, world).value;
      var turns := if ReplyTruthy(reply) then [Message(User, text), Message(Assistant, reply.value)]
                   else [Message(User, text)];
      r.conversations[uid] == TakeLast(Prior(b.conversations, uid) + turns, MaxHistory)
  {
    if IsBlank(text) then b
    else
      var withInput := AddToConversation(b.conversations, uid, text, false);
      match Respond(b.currentApi, world)
      case Raised => b.(conversations := withInput[uid := []])
      case Returned(reply) =>
        if world.replyFails then b.(conversations := withInput[uid := []])
        else if ReplyTruthy(reply) then
          var withReply := AddToConversation(withInput, uid, reply.value, true);
          TwoTurnWindow(Prior(b.conversations, uid), Message(User, text), Message(Assistant, reply.value));
          b.(conversations := withReply)
        else b.(conversations := withInput)
  }

  /** Recording two turns one after the other windows them together. */
  lemma TwoTurnWindow(before: seq<Message>, first: Message, second: Message)
    ensures TakeLast(TakeLast(before + [first], MaxHistory) + [second], MaxHistory)
         == TakeLast(before + [first, second], MaxHistory)
  {
    TakeLastConcat(before + [first], [second], MaxHistory);
    assert before + [first] + [second] == before + [first, second];
  }

  /** The mode effect of `button_handler`: histories untouched. When
      acknowledging the press (`query.answer()`) raises, nothing changes;
      otherwise the mode follows the pressed button exactly when its data
      names a known mode. */
  function ButtonHandler(b: Bot, callbackData: string, answerFails: bool): (r: Bot)
    ensures r.conversations == b.conversations
    ensures answerFails ==> r == b
    ensures !answerFails && IsKnown(callbackData) ==> r.currentApi == callbackData
    ensures !IsKnown(callbackData) ==> r == b
  {
    if answerFails then b
    else b.(currentApi := SwitchMode(b.currentApi, callbackData))
  }

  /** The state effect of the `/clear` command. */
  function ClearChatHandler(b: Bot, uid: UserId): (r: Bot)
    ensures r.currentApi == b.currentApi
    ensures r.conversations.Keys == b.conversations.Keys
    ensures uid in b.conversations ==> r.conversations[uid] == []
    ensures uid !in b.conversations ==> r == b
    ensures forall u :: u in b.conversations && u != uid ==> r.conversations[u] == b.conversations[u]
  {
    b.(conversations := ClearChat(b.conversations, uid))
  }

  /** What `show_current_mode` displays. */
  function CurrentModeName(b: Bot, titleCase: string -> string): (name: string)
    requires Valid(b)
    ensures name == DisplayNames[b.currentApi]
  {
    DisplayNamesCoverModes(b.currentApi, titleCase);
    DisplayName(b.currentApi, titleCase)
  }

  /** The updates the bot handles. `/help`, `/modes`, `/switch` and
      `/current` only reply, so they are one `Query`. */
  datatype Event =
    | StartCommand(uid: UserId, welcomeFails: bool)
    | TextMessage(uid: UserId, text: string, world: World)
    | ButtonPress(callbackData: string, answerFails: bool)
    | ClearCommand(uid: UserId)
    | Query

  function Step(b: Bot, e: Event): Bot {
    match e
    case StartCommand(uid, welcomeFails) => Start(b, uid, welcomeFails)
    case TextMessage(uid, text, world) => HandleMessage(b, uid, text, world)
    case ButtonPress(data, answerFails) => ButtonHandler(b, data, answerFails)
    case ClearCommand(uid) => ClearChatHandler(b, uid)
    case Query => b
  }

  /** The updates of `events`, handled one at a time in order. */
  function Run(b: Bot, events: seq<Event>): Bot
    decreases |events|
  {
    if events == [] then b else Run(Step(b, events[0]), events[1..])
  }

  /** Handling a text message keeps the state valid. */
  lemma HandleMessageKeepsValid(b: Bot, uid: UserId, text: string, world: World)
    requires Valid(b)
    ensures Valid(HandleMessage(b, uid, text, world))
  {
    var r := HandleMessage(b, uid, text, world);
    if !IsBlank(text) {
      forall u | u in r.conversations
        ensures |r.conversations[u]| <= MaxHistory
      {
        if u != uid {
          assert u in b.conversations;
        }
      }
    }
  }

  /** `/start` keeps the state valid. */
  lemma StartKeepsValid(b: Bot, uid: UserId, welcomeFails: bool)
    requires Valid(b)
    ensures Valid(Start(b, uid, welcomeFails))
  {
    var r := Start(b, uid, welcomeFails);
    forall u | u in r.conversations
      ensures |r.conversations[u]| <= MaxHistory
    {
      if u != uid {
        assert u in b.conversations;
      }
    }
  }

  /** Every handler keeps the state valid. */
  lemma StepKeepsValid(b: Bot, e: Event)
    requires Valid(b)
    ensures Valid(Step(b, e))
  {
    match e
    case TextMessage(uid, text, world) =>
      HandleMessageKeepsValid(b, uid, text, world);
    case StartCommand(uid, welcomeFails) =>
      StartKeepsValid(b, uid, welcomeFails);
    case ClearCommand(uid) =>
      OperationsKeepBounded(b.conversations, uid, "", false);
    case ButtonPress(data, answerFails) =>
    case Query =>
  }

  /** From the initial state, whatever updates arrive, the mode is always a
      key of the endpoint table and every history holds at most ten
      messages. */
  lemma {:induction false} RunKeepsValid(b: Bot, events: seq<Event>)
    requires Valid(b)
    ensures Valid(Run(b, events))
    decreases |events|
  {
    if events != [] {
      StepKeepsValid(b, events[0]);
      RunKeepsValid(Step(b, events[0]), events[1..]);
    }
  }

  lemma ReachableIsValid(events: seq<Event>)
    ensures Valid(Run(Init(), events))
    ensures IsKnown(Run(Init(), events).currentApi)
  {
    RunKeepsValid(Init(), events);
  }

  /** In a reachable state the endpoint lookup cannot raise, so a history
      is reset only when sending a reply to Telegram fails. */
  lemma ResetOnlyOnSendFailure(b: Bot, uid: UserId, text: string, world: World)
    requires Valid(b)
    ensures Failed(b.currentApi, world) <==> world.replyFails
    ensures !IsBlank(text) && !world.replyFails ==>
      |HandleMessage(b, uid, text, world).conversations[uid]| > 0
  {
  }

  /** Whether an update concerns the history of `uid`. */
  predicate Touches(e: Event, uid: UserId) {
    match e
    case StartCommand(u, _) => u == uid
    case TextMessage(u, _, _) => u == uid
    case ClearCommand(u) => u == uid
    case _ => false
  }

  /** Users are isolated: updates from other users, button presses and
      queries never change a user's history, and never give a history to a
      user who had none. */
  lemma {:induction false} OthersLeaveHistoryAlone(b: Bot, events: seq<Event>, uid: UserId)
    requires forall k :: 0 <= k < |events| ==> !Touches(events[k], uid)
    ensures (uid in Run(b, events).conversations) == (uid in b.conversations)
    ensures Prior(Run(b, events).conversations, uid) == Prior(b.conversations, uid)
    decreases |events|
  {
    if events != [] {
      var next := Step(b, events[0]);
      assert !Touches(events[0], uid);
      StepLeavesOthersAlone(b, events[0], uid);
      OthersLeaveHistoryAlone(next, events[1..], uid);
    }
  }

  /** One update that does not concern `uid` leaves its history, or its
      absence, as it was. */
  lemma StepLeavesOthersAlone(b: Bot, e: Event, uid: UserId)
    requires !Touches(e, uid)
    ensures (uid in Step(b, e).conversations) == (uid in b.conversations)
    ensures Prior(Step(b, e).conversations, uid) == Prior(b.conversations, uid)
  {
    match e
    case StartCommand(u, welcomeFails) =>
      var r := Start(b, u, welcomeFails);
      assert Step(b, e) == r;
    case TextMessage(u, text, world) =>
      var r := HandleMessage(b, u, text, world);
      assert Step(b, e) == r;
    case ClearCommand(u) =>
      var r := ClearChatHandler(b, u);
      assert Step(b, e) == r;
    case ButtonPress(data, answerFails) =>
    case Query =>
  }
}
