/**
 * The conversation store: a map from conversation id to its message buffer,
 * most recent message first (`LineClient._conversations` and each
 * `LineConversation._messages`).
 */
module ConversationStore {
  import opened Wrappers
  import opened LineTypes

  type Store = map<Mid, seq<Message>>

  /** How many recent messages seed a conversation first seen through `_add_to_conversation`. */
  const NEW_CONVERSATION_HISTORY: int := 20

  /** `LineClient.DEFAULT_INITIAL_HISTORY`, the default depth of `update_conversation`. */
  const DEFAULT_INITIAL_HISTORY: int := 15

  function Min(a: int, b: int): int
  {
    if a <= b then a else b
  }

  /**
   * `LineConversation.last_messages(n)`: the n most recent messages, or all
   * of them when n <= 0.
   */
  function LastMessages(messages: seq<Message>, n: int := -1): (r: seq<Message>)
    ensures r <= messages
    ensures |r| == if n <= 0 then |messages| else Min(n, |messages|)
  {
    if n <= 0 then messages[..] else messages[..Min(n, |messages|)]
  }

  /**
   * `_add_to_conversation(group, message)`: an existing conversation gets the
   * message in front; an unseen one is created holding exactly the recent
   * history the server returns, without the message itself.
   */
  function Added(store: Store, group: Mid, message: Message, recent: History): (s: Store)
    ensures s.Keys == store.Keys + {group}
    ensures group in store ==> |s[group]| == |store[group]| + 1 && s[group][0] == message && s[group][1..] == store[group]
    ensures group !in store ==> s[group] == recent(group, NEW_CONVERSATION_HISTORY)
    ensures forall g :: g in store && g != group ==> s[g] == store[g]
  {
    if group in store then
      store[group := [message] + store[group]]
    else
      store[group := recent(group, NEW_CONVERSATION_HISTORY)]
  }

  /**
   * `update_conversation(group, initialHistory)`: get-or-create, then the
   * buffer is replaced by a fresh fetch of that depth, or emptied when the
   * depth is not positive.
   */
  function Replaced(store: Store, group: Mid, initialHistory: int, recent: History): (s: Store)
    ensures s.Keys == store.Keys + {group}
    ensures s[group] == if initialHistory > 0 then recent(group, initialHistory) else []
    ensures forall g :: g in store && g != group ==> s[g] == store[g]
  {
    var fetched := if initialHistory > 0 then recent(group, initialHistory) else [];
    store[group := fetched]
  }

  /** `conversation(group)`: the registered conversation, or a `KeyError`; nothing is created. */
  function Lookup(store: Store, target: Target): (r: Result<Mid, LineError>)
    ensures r.Success? <==> TargetMid(target) in store
    ensures r.Success? ==> r.value == TargetMid(target)
    ensures r.Failure? ==> r.error == NotFound(TargetMid(target))
  {
    var group := TargetMid(target);
    if group in store then Success(group) else Failure(NotFound(group))
  }

  /**
   * Replacing a conversation's history with a fetch of depth k and then taking
   * the k most recent messages gives back what was fetched, in order, as long
   * as the server returned at most k messages.
   */
  lemma ReplaceThenSnapshot(store: Store, group: Mid, k: int, recent: History)
    requires k > 0 && |recent(group, k)| <= k
    ensures LastMessages(Replaced(store, group, k, recent)[group], k) == recent(group, k)
  {
  }

  /** A message added to an existing conversation is the one a snapshot of depth 1 returns. */
  lemma AddedIsMostRecent(store: Store, group: Mid, message: Message, recent: History)
    requires group in store
    ensures LastMessages(Added(store, group, message, recent)[group], 1) == [message]
  {
  }
}
