/** The per-user conversation store of `AIChatBot` (bot.py): a dictionary
    from Telegram user id to a role-tagged history kept to a sliding window
    of the ten most recent messages. */
module Conversation {
  import opened Seqs

  /** Telegram user ids are Python integers. */
  type UserId = int

  /** The `"role"` field of a history entry. */
  datatype Role = User | Assistant

  /** The string Python stores under `"role"`. */
  function RoleName(r: Role): string {
    match r
    case User => "user"
    case Assistant => "assistant"
  }

  /** One history entry, `{"role": ..., "content": ...}`. */
  datatype Message = Message(role: Role, content: string)

  /** The window size used by `add_to_conversation`. */
  const MaxHistory: nat := 10

  /** `self.conversations`. */
  type Store = map<UserId, seq<Message>>

  /** The history the store holds for `uid`, reading an absent user as the
      empty history (what `get_conversation_history` would create). */
  function Prior(store: Store, uid: UserId): seq<Message> {
    if uid in store then store[uid] else []
  }

  /** The entry `add_to_conversation` appends: an assistant message exactly
      when the caller says it comes from the bot. */
  function Entry(content: string, isBot: bool): (m: Message)
    ensures m.content == content
    ensures m.role == Assistant <==> isBot
    ensures RoleName(m.role) == (if isBot then "assistant" else "user")
  {
    Message(if isBot then Assistant else User, content)
  }

  /** `get_conversation_history`: returns the user's history, first creating
      an empty one only when the user has none. An existing history is
      returned, and the store kept, unchanged. */
  function GetHistory(store: Store, uid: UserId): (res: (Store, seq<Message>))
    ensures uid in res.0 && res.0[uid] == res.1
    ensures res.0.Keys == store.Keys + {uid}
    ensures uid in store ==> res.0 == store && res.1 == store[uid]
    ensures uid !in store ==> res.1 == [] && forall u :: u in store ==> res.0[u] == store[u]
  {
    if uid in store then (store, store[uid]) else (store[uid := []], [])
  }

  /** `add_to_conversation`: appends the entry and, when the history has
      grown past the window, keeps only its last `MaxHistory` entries. */
  function AddToConversation(store: Store, uid: UserId, content: string, isBot: bool): (r: Store)
    ensures r.Keys == store.Keys + {uid}
    ensures forall u :: u in store && u != uid ==> r[u] == store[u]
    ensures |r[uid]| == Min(MaxHistory, |Prior(store, uid)| + 1)
    ensures r[uid][|r[uid]| - 1] == Entry(content, isBot)
    ensures r[uid] == TakeLast(Prior(store, uid) + [Entry(content, isBot)], MaxHistory)
  {
    var (created, history) := GetHistory(store, uid);
    var appended := history + [Entry(content, isBot)];
    if |appended| > MaxHistory then
      created[uid := appended[|appended| - MaxHistory..]]
    else
      created[uid := appended]
  }

  /** The state effect of `clear_chat`: an existing history becomes empty;
      a user without one is not given one. */
  function ClearChat(store: Store, uid: UserId): (r: Store)
    ensures r.Keys == store.Keys
    ensures uid in store ==> r[uid] == []
    ensures forall u :: u in store && u != uid ==> r[u] == store[u]
  {
    if uid in store then store[uid := []] else store
  }

  /** Every history is within the window. */
  predicate Bounded(store: Store) {
    forall u :: u in store ==> |store[u]| <= MaxHistory
  }

  /** Adding and clearing keep every history within the window. */
  lemma OperationsKeepBounded(store: Store, uid: UserId, content: string, isBot: bool)
    requires Bounded(store)
    ensures Bounded(AddToConversation(store, uid, content, isBot))
    ensures Bounded(ClearChat(store, uid))
  {
  }

  /** Adds the messages of `ms` to `uid`'s history one after another, as a
      run of `add_to_conversation` calls does. */
  function AddAll(store: Store, uid: UserId, ms: seq<Message>): Store
    decreases |ms|
  {
    if ms == [] then store
    else AddAll(AddToConversation(store, uid, ms[0].content, ms[0].role == Assistant), uid, ms[1..])
  }

  /** The sliding window over a whole run: after any number of additions the
      history is exactly the last `MaxHistory` entries of everything that was
      ever added, in the order added. */
  lemma {:induction false} AddAllIsWindow(store: Store, uid: UserId, ms: seq<Message>)
    requires ms != []
    ensures uid in AddAll(store, uid, ms)
    ensures AddAll(store, uid, ms)[uid] == TakeLast(Prior(store, uid) + ms, MaxHistory)
    decreases |ms|
  {
    var m, rest := ms[0], ms[1..];
    var next := AddToConversation(store, uid, m.content, m.role == Assistant);
    EntryOfMessage(m);
    if rest == [] {
      assert ms == [m];
    } else {
      AddAllIsWindow(next, uid, rest);
      WindowStep(Prior(store, uid), ms);
    }
  }

  /** Rebuilding an entry from a message's own fields gives the message. */
  lemma EntryOfMessage(m: Message)
    ensures Entry(m.content, m.role == Assistant) == m
  {
  }

  /** One step of the run: windowing the first addition and then the rest
      is windowing all of them at once. */
  lemma WindowStep(before: seq<Message>, ms: seq<Message>)
    requires ms != []
    ensures TakeLast(TakeLast(before + [ms[0]], MaxHistory) + ms[1..], MaxHistory)
         == TakeLast(before + ms, MaxHistory)
  {
    var first, rest := [ms[0]], ms[1..];
    assert ms == first + rest;
    TakeLastConcat(before + first, rest, MaxHistory);
    assert (before + first) + rest == before + (first + rest);
  }

  /** A run of additions for one user leaves every other user's history
      where it was. */
  lemma {:induction false} AddAllKeepsOthers(store: Store, uid: UserId, ms: seq<Message>, other: UserId)
    requires other in store && other != uid
    ensures other in AddAll(store, uid, ms) && AddAll(store, uid, ms)[other] == store[other]
    decreases |ms|
  {
    if ms != [] {
      var next := AddToConversation(store, uid, ms[0].content, ms[0].role == Assistant);
      AddAllKeepsOthers(next, uid, ms[1..], other);
    }
  }
}
