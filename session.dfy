/**
 * The chat-session store of the front end: a list of chats and the id of the active
 * chat. Each `setChats` updater closure is a pure function on that state; the class
 * `ChatApp` holds the two state fields and applies one updater per method, as the
 * event handlers do. A turn runs as three transitions (user message, placeholder,
 * reply) that all use the active id captured when the turn started.
 */
module Session {
  import opened Wrappers
  import opened Strings
  import opened Messages

  /** JavaScript truthiness of an id: `null` and `0` both count as "no chat". */
  predicate IsSet(id: Option<int>) {
    id.Some? && id.value != 0
  }

  datatype State = State(chats: seq<Chat>, active: Option<int>)

  predicate HasChat(chats: seq<Chat>, id: int) {
    exists i :: 0 <= i < |chats| && chats[i].id == id
  }

  /** The position of the chat `chats.find(chat => chat.id === id)` returns: the first one holding the id. */
  function FindIndex(chats: seq<Chat>, id: int): (r: Option<nat>)
    ensures r.None? <==> !HasChat(chats, id)
    ensures r.Some? ==> r.value < |chats| && chats[r.value].id == id
    ensures r.Some? ==> forall j :: 0 <= j < r.value ==> chats[j].id != id
  {
    if chats == [] then None
    else if chats[0].id == id then Some(0)
    else match FindIndex(chats[1..], id)
      case None => None
      case Some(k) => Some(k + 1)
  }

  /** The active chat: the first chat carrying the active id, when that id is truthy. */
  function ActiveChat(s: State): (c: Option<Chat>)
    ensures c.Some? <==> IsSet(s.active) && HasChat(s.chats, s.active.value)
    ensures c.Some? ==> c.value.id == s.active.value && c.value in s.chats
    ensures c.Some? ==> c.value == s.chats[FindIndex(s.chats, s.active.value).value]
  {
    if !IsSet(s.active) then None
    else match FindIndex(s.chats, s.active.value)
      case None => None
      case Some(k) => Some(s.chats[k])
  }

  /** The messages on display: those of the active chat, or none. */
  function ActiveMessages(s: State): (ms: seq<Message>)
    ensures ActiveChat(s).None? ==> ms == []
    ensures ActiveChat(s).Some? ==> ms == ActiveChat(s).value.messages
  {
    match ActiveChat(s)
    case None => []
    case Some(c) => c.messages
  }

  // ---------------------------------------------------------------------------
  // Step 1 of a turn: the user message
  // ---------------------------------------------------------------------------

  /** Whether a chat with this id takes the user message, and so its name. */
  function WithUserMessageAt(c: Chat, id: int, text: string, msg: Message): Chat {
    if c.id == id
    then Chat(c.id, if c.messages == [] then ChatTitle(text) else c.name, c.messages + [msg])
    else c
  }

  /**
   * The first updater of `handleSendMessage`. Without a truthy active id that names an
   * existing chat, a new chat named after the text and holding only the message is
   * appended and activated; otherwise every chat with the active id gains the message
   * and is renamed only if it had no messages, and nothing else changes.
   */
  function WithUserMessage(s: State, text: string, msg: Message, newChatId: int): (r: State)
    ensures !IsSet(s.active) || !HasChat(s.chats, s.active.value) ==>
      && r.chats == s.chats + [Chat(newChatId, ChatTitle(text), [msg])]
      && r.active == Some(newChatId)
    ensures IsSet(s.active) && HasChat(s.chats, s.active.value) ==>
      && r.active == s.active
      && |r.chats| == |s.chats|
      && (forall i :: 0 <= i < |s.chats| ==> r.chats[i].id == s.chats[i].id)
      && (forall i :: 0 <= i < |s.chats| && s.chats[i].id != s.active.value ==> r.chats[i] == s.chats[i])
      && (forall i :: 0 <= i < |s.chats| && s.chats[i].id == s.active.value ==>
            r.chats[i].messages == s.chats[i].messages + [msg])
      && (forall i :: 0 <= i < |s.chats| && s.chats[i].id == s.active.value ==>
            r.chats[i].name == if s.chats[i].messages == [] then ChatTitle(text) else s.chats[i].name)
  {
    if !IsSet(s.active) || !HasChat(s.chats, s.active.value) then
      State(s.chats + [Chat(newChatId, ChatTitle(text), [msg])], Some(newChatId))
    else
      var id := s.active.value;
      State(seq(|s.chats|, i requires 0 <= i < |s.chats| => WithUserMessageAt(s.chats[i], id, text, msg)), s.active)
  }

  // ---------------------------------------------------------------------------
  // Steps 2 and 3: placeholder and reply
  // ---------------------------------------------------------------------------

  /** The chat a turn's later steps write to: the captured active id, else the last chat's id. */
  function TurnTarget(chats: seq<Chat>, captured: Option<int>): (t: Option<int>)
    ensures IsSet(captured) ==> t == captured
    ensures !IsSet(captured) && chats != [] ==> t == Some(chats[|chats| - 1].id)
    ensures !IsSet(captured) && chats == [] ==> t == None
  {
    if IsSet(captured) then captured
    else if chats != [] then Some(chats[|chats| - 1].id)
    else None
  }

  /** `messages.filter(msg => msg.id !== id)`. */
  function WithoutMessage(ms: seq<Message>, id: int): (r: seq<Message>)
    ensures |r| <= |ms|
  {
    if ms == [] then []
    else if ms[0].id == id then WithoutMessage(ms[1..], id)
    else [ms[0]] + WithoutMessage(ms[1..], id)
  }

  /** The filter keeps exactly the messages that do not carry the id. */
  lemma {:induction false} WithoutMessageKeeps(ms: seq<Message>, id: int)
    ensures forall m :: m in WithoutMessage(ms, id) <==> m in ms && m.id != id
  {
    if ms != [] {
      WithoutMessageKeeps(ms[1..], id);
      assert ms == [ms[0]] + ms[1..];
    }
  }

  /** The filter keeps the relative order of what it keeps: it distributes over concatenation. */
  lemma {:induction false} WithoutMessageAppend(a: seq<Message>, b: seq<Message>, id: int)
    ensures WithoutMessage(a + b, id) == WithoutMessage(a, id) + WithoutMessage(b, id)
  {
    if a != [] {
      assert (a + b)[1..] == a[1..] + b;
      WithoutMessageAppend(a[1..], b, id);
    } else {
      assert a + b == b;
    }
  }

  /** Filtering out an id that no message carries changes nothing. */
  lemma {:induction false} WithoutAbsentMessage(ms: seq<Message>, id: int)
    requires forall m :: m in ms ==> m.id != id
    ensures WithoutMessage(ms, id) == ms
  {
    if ms != [] {
      assert ms[0] in ms;
      assert forall m :: m in ms[1..] ==> m in ms;
      WithoutAbsentMessage(ms[1..], id);
    }
  }

  function AppendAt(c: Chat, target: int, ms: seq<Message>): Chat {
    if c.id == target then Chat(c.id, c.name, c.messages + ms) else c
  }

  /** `chats.map(...)` appending `ms` to every chat with the target id; no truthy target keeps the list. */
  function AppendToTarget(chats: seq<Chat>, target: Option<int>, ms: seq<Message>): (r: seq<Chat>)
    ensures |r| == |chats|
    ensures !IsSet(target) ==> r == chats
    ensures IsSet(target) ==> forall i :: 0 <= i < |chats| ==> r[i] == AppendAt(chats[i], target.value, ms)
  {
    if !IsSet(target) then chats
    else seq(|chats|, i requires 0 <= i < |chats| => AppendAt(chats[i], target.value, ms))
  }

  /**
   * The second updater: the placeholder is appended to every chat carrying the turn's
   * target id. With no truthy target, or a target that matches no chat, the list is kept.
   */
  function WithPlaceholder(chats: seq<Chat>, captured: Option<int>, placeholder: Message): (r: seq<Chat>)
    ensures |r| == |chats|
    ensures !IsSet(TurnTarget(chats, captured)) ==> r == chats
    ensures IsSet(TurnTarget(chats, captured)) ==> forall i :: 0 <= i < |chats| ==>
      && r[i].id == chats[i].id && r[i].name == chats[i].name
      && r[i].messages == chats[i].messages
           + (if chats[i].id == TurnTarget(chats, captured).value then [placeholder] else [])
  {
    AppendToTarget(chats, TurnTarget(chats, captured), [placeholder])
  }

  function ReplaceAt(c: Chat, target: int, placeholderId: int, reply: seq<Message>): Chat {
    if c.id == target then Chat(c.id, c.name, WithoutMessage(c.messages, placeholderId) + reply) else c
  }

  /**
   * The third updater (both the response and the exception path): in every chat carrying
   * the target id, all messages with the placeholder's id are removed and the reply is
   * appended after the rest.
   */
  function WithReply(chats: seq<Chat>, captured: Option<int>, placeholderId: int, reply: seq<Message>): (r: seq<Chat>)
    ensures |r| == |chats|
    ensures !IsSet(TurnTarget(chats, captured)) ==> r == chats
    ensures IsSet(TurnTarget(chats, captured)) ==> forall i :: 0 <= i < |chats| ==>
      && r[i].id == chats[i].id && r[i].name == chats[i].name
      && (chats[i].id == TurnTarget(chats, captured).value ==>
            r[i].messages == WithoutMessage(chats[i].messages, placeholderId) + reply)
      && (chats[i].id != TurnTarget(chats, captured).value ==> r[i] == chats[i])
  {
    var target := TurnTarget(chats, captured);
    if !IsSet(target) then chats
    else seq(|chats|, i requires 0 <= i < |chats| => ReplaceAt(chats[i], target.value, placeholderId, reply))
  }

  /** No message of any chat carries this id. */
  predicate MessageIdUnused(chats: seq<Chat>, id: int) {
    forall i, m :: 0 <= i < |chats| && m in chats[i].messages ==> m.id != id
  }

  /** Within one chat: removing a fresh placeholder right after appending it leaves just the reply appended. */
  lemma ReplaceAfterAppend(c: Chat, target: int, placeholder: Message, reply: seq<Message>)
    requires forall m :: m in c.messages ==> m.id != placeholder.id
    ensures ReplaceAt(AppendAt(c, target, [placeholder]), target, placeholder.id, reply) == AppendAt(c, target, reply)
  {
    if c.id == target {
      WithoutMessageAppend(c.messages, [placeholder], placeholder.id);
      WithoutAbsentMessage(c.messages, placeholder.id);
      assert WithoutMessage([placeholder], placeholder.id) == [];
    }
  }

  /**
   * The placeholder is always replaced: when its id is fresh, placing it and then
   * settling the turn leaves each targeted chat with its old messages followed by the
   * reply, and every other chat as it was.
   */
  lemma PlaceholderThenReply(chats: seq<Chat>, captured: Option<int>, placeholder: Message, reply: seq<Message>)
    requires MessageIdUnused(chats, placeholder.id)
    ensures WithReply(WithPlaceholder(chats, captured, placeholder), captured, placeholder.id, reply)
         == AppendToTarget(chats, TurnTarget(chats, captured), reply)
  {
    var target := TurnTarget(chats, captured);
    var mid := WithPlaceholder(chats, captured, placeholder);
    assert TurnTarget(mid, captured) == target by {
      if !IsSet(captured) && chats != [] {
        assert mid[|mid| - 1].id == chats[|chats| - 1].id;
      }
    }
    if IsSet(target) {
      var r := WithReply(mid, captured, placeholder.id, reply);
      var want := AppendToTarget(chats, target, reply);
      forall i | 0 <= i < |chats|
        ensures r[i] == want[i]
      {
        assert mid[i] == AppendAt(chats[i], target.value, [placeholder]);
        assert r[i] == ReplaceAt(mid[i], target.value, placeholder.id, reply);
        ReplaceAfterAppend(chats[i], target.value, placeholder, reply);
      }
    }
  }

  /**
   * A captured id that is truthy but names no chat (the chat was deleted, or never
   * existed) makes the placeholder and the reply vanish: the list is unchanged.
   */
  lemma StaleCaptureDropsTurn(chats: seq<Chat>, captured: Option<int>, placeholder: Message,
                              placeholderId: int, reply: seq<Message>)
    requires IsSet(captured) && !HasChat(chats, captured.value)
    ensures WithPlaceholder(chats, captured, placeholder) == chats
    ensures WithReply(chats, captured, placeholderId, reply) == chats
  {
    var p := WithPlaceholder(chats, captured, placeholder);
    forall i | 0 <= i < |chats| ensures p[i] == chats[i] {
      assert chats[i].id != captured.value;
    }
    var q := WithReply(chats, captured, placeholderId, reply);
    forall i | 0 <= i < |chats| ensures q[i] == chats[i] {
      assert chats[i].id != captured.value;
    }
  }

  /** The state the front end starts in: one new chat, and an active id from a second clock reading. */
  function Initial(chatTime: int, activeTime: int): (s: State)
    ensures s.chats == [NewChat(chatTime)] && s.active == Some(activeTime)
    ensures ActiveChat(s).Some? <==> activeTime != 0 && activeTime == chatTime
  {
    State([NewChat(chatTime)], Some(activeTime))
  }

  /**
   * When the two clock readings of the initial state differ, the first turn opens a
   * second chat for the user message but both its placeholder and its reply are
   * dropped, because the captured active id names no chat.
   */
  lemma FirstTurnAfterClockSkew(chatTime: int, activeTime: int, text: string, msg: Message,
                                newChatId: int, placeholder: Message, reply: seq<Message>)
    requires activeTime != 0 && activeTime != chatTime && newChatId != activeTime
    ensures var s1 := WithUserMessage(Initial(chatTime, activeTime), text, msg, newChatId);
      && |s1.chats| == 2
      && WithPlaceholder(s1.chats, Some(activeTime), placeholder) == s1.chats
      && WithReply(s1.chats, Some(activeTime), placeholder.id, reply) == s1.chats
  {
    var s0 := Initial(chatTime, activeTime);
    assert !HasChat(s0.chats, activeTime);
    var s1 := WithUserMessage(s0, text, msg, newChatId);
    assert !HasChat(s1.chats, activeTime) by {
      assert s1.chats == [NewChat(chatTime), Chat(newChatId, ChatTitle(text), [msg])];
    }
    StaleCaptureDropsTurn(s1.chats, Some(activeTime), placeholder, placeholder.id, reply);
  }

  // ---------------------------------------------------------------------------
  // Deleting, adding and auto-selecting chats
  // ---------------------------------------------------------------------------

  /** `chats.filter(chat => chat.id !== id)`. */
  function WithoutChat(chats: seq<Chat>, id: int): (r: seq<Chat>)
    ensures |r| <= |chats|
  {
    if chats == [] then []
    else if chats[0].id == id then WithoutChat(chats[1..], id)
    else [chats[0]] + WithoutChat(chats[1..], id)
  }

  /** The filter keeps exactly the chats that do not carry the id, so none with the id remains. */
  lemma {:induction false} WithoutChatKeeps(chats: seq<Chat>, id: int)
    ensures forall c :: c in WithoutChat(chats, id) <==> c in chats && c.id != id
    ensures !HasChat(WithoutChat(chats, id), id)
  {
    if chats != [] {
      WithoutChatKeeps(chats[1..], id);
      assert chats == [chats[0]] + chats[1..];
    }
    var r := WithoutChat(chats, id);
    forall i | 0 <= i < |r| ensures r[i].id != id {
      assert r[i] in r;
    }
  }

  /** Deleting keeps the surviving chats in their order: the filter distributes over concatenation. */
  lemma {:induction false} WithoutChatAppend(a: seq<Chat>, b: seq<Chat>, id: int)
    ensures WithoutChat(a + b, id) == WithoutChat(a, id) + WithoutChat(b, id)
  {
    if a != [] {
      assert (a + b)[1..] == a[1..] + b;
      WithoutChatAppend(a[1..], b, id);
    } else {
      assert a + b == b;
    }
  }

  /** Deleting an id no chat carries is a no-op. */
  lemma {:induction false} WithoutAbsentChat(chats: seq<Chat>, id: int)
    requires !HasChat(chats, id)
    ensures WithoutChat(chats, id) == chats
  {
    if chats != [] {
      assert chats[0].id != id;
      assert !HasChat(chats[1..], id) by {
        forall i | 0 <= i < |chats[1..]| ensures chats[1..][i].id != id {
          assert chats[1..][i] == chats[i + 1];
        }
      }
      WithoutAbsentChat(chats[1..], id);
    }
  }

  /** `handleDeleteChat`: every chat with the id goes; the active id is cleared exactly when it was that id. */
  function AfterDelete(s: State, id: int): (r: State)
    ensures r.chats == WithoutChat(s.chats, id)
    ensures s.active == Some(id) ==> r.active == None
    ensures s.active != Some(id) ==> r.active == s.active
  {
    State(WithoutChat(s.chats, id), if s.active == Some(id) then None else s.active)
  }

  /** `handleAddChat`: the chat is appended at the end and becomes active. */
  function AfterAdd(s: State, c: Chat): (r: State)
    ensures |r.chats| == |s.chats| + 1 && r.chats[..|s.chats|] == s.chats && r.chats[|s.chats|] == c
    ensures r.active == Some(c.id)
  {
    State(s.chats + [c], Some(c.id))
  }

  /** A chat added with a truthy, unused id is the active chat afterwards. */
  lemma AddedChatIsActive(s: State, c: Chat)
    requires c.id != 0 && !HasChat(s.chats, c.id)
    ensures ActiveChat(AfterAdd(s, c)) == Some(c)
  {
    var r := AfterAdd(s, c);
    assert r.chats[|s.chats|] == c;
    var k := FindIndex(r.chats, c.id);
    assert k.Some? && k.value == |s.chats| by {
      assert HasChat(r.chats, c.id);
      assert forall j :: 0 <= j < |s.chats| ==> r.chats[j] == s.chats[j];
    }
  }

  /** The effect that runs on every change: with chats present and no truthy active id, the first chat becomes active. */
  function AfterAutoSelect(s: State): (r: State)
    ensures r.chats == s.chats
    ensures IsSet(s.active) || s.chats == [] ==> r == s
    ensures !IsSet(s.active) && s.chats != [] ==> r.active == Some(s.chats[0].id)
    ensures !IsSet(s.active) && s.chats != [] && s.chats[0].id != 0 ==> ActiveChat(r) == Some(s.chats[0])
  {
    if s.chats != [] && !IsSet(s.active) then State(s.chats, Some(s.chats[0].id)) else s
  }

  /** Running the effect again changes nothing: its result is a fixed point. */
  lemma AutoSelectSettles(s: State)
    ensures AfterAutoSelect(AfterAutoSelect(s)) == AfterAutoSelect(s)
  {
  }

  /**
   * Deleting the active chat clears the active id; the effect then selects the first
   * remaining chat, if there is one.
   */
  lemma DeleteActiveThenAutoSelect(s: State, id: int)
    requires s.active == Some(id)
    ensures AfterDelete(s, id).active == None
    ensures var r := AfterAutoSelect(AfterDelete(s, id));
      && r.chats == WithoutChat(s.chats, id)
      && (r.chats == [] ==> r.active == None)
      && (r.chats != [] ==> r.active == Some(r.chats[0].id))
  {
  }

  // ---------------------------------------------------------------------------
  // Whole turns
  // ---------------------------------------------------------------------------

  /**
   * A turn on an existing active chat with fresh message ids: after the user message,
   * the placeholder and the reply, that chat holds its old messages, then the user
   * message, then the reply; the other chats and the active id are unchanged.
   */
  lemma TurnOnActiveChat(s: State, text: string, msg: Message, newChatId: int,
                         placeholder: Message, reply: seq<Message>)
    requires IsSet(s.active) && HasChat(s.chats, s.active.value)
    requires MessageIdUnused(s.chats, placeholder.id) && msg.id != placeholder.id
    ensures var s1 := WithUserMessage(s, text, msg, newChatId);
      var done := WithReply(WithPlaceholder(s1.chats, s.active, placeholder), s.active, placeholder.id, reply);
      && s1.active == s.active
      && |done| == |s.chats|
      && forall i :: 0 <= i < |s.chats| ==>
           && done[i].id == s.chats[i].id
           && (s.chats[i].id == s.active.value ==> done[i].messages == s.chats[i].messages + [msg] + reply)
           && (s.chats[i].id != s.active.value ==> done[i] == s.chats[i])
  {
    var s1 := WithUserMessage(s, text, msg, newChatId);
    assert MessageIdUnused(s1.chats, placeholder.id) by {
      forall i, m | 0 <= i < |s1.chats| && m in s1.chats[i].messages ensures m.id != placeholder.id {
        assert m == msg || m in s.chats[i].messages;
      }
    }
    PlaceholderThenReply(s1.chats, s.active, placeholder, reply);
  }

  /**
   * A turn with no truthy active id opens a chat for the user message; with a truthy
   * new-chat id and a fresh placeholder id, the reply lands in that new chat, after the
   * user message, and the earlier chats are untouched.
   */
  lemma TurnWithoutActiveChat(s: State, text: string, msg: Message, newChatId: int,
                              placeholder: Message, reply: seq<Message>)
    requires !IsSet(s.active) && newChatId != 0 && !HasChat(s.chats, newChatId)
    requires MessageIdUnused(s.chats, placeholder.id) && msg.id != placeholder.id
    ensures var s1 := WithUserMessage(s, text, msg, newChatId);
      var done := WithReply(WithPlaceholder(s1.chats, s.active, placeholder), s.active, placeholder.id, reply);
      && s1.active == Some(newChatId)
      && done == s.chats + [Chat(newChatId, ChatTitle(text), [msg] + reply)]
  {
    var s1 := WithUserMessage(s, text, msg, newChatId);
    var n := |s.chats|;
    assert MessageIdUnused(s1.chats, placeholder.id) by {
      forall i, m | 0 <= i < |s1.chats| && m in s1.chats[i].messages ensures m.id != placeholder.id {
        if i < n { assert s1.chats[i] == s.chats[i]; }
      }
    }
    PlaceholderThenReply(s1.chats, s.active, placeholder, reply);
    assert TurnTarget(s1.chats, s.active) == Some(newChatId);
    forall i | 0 <= i < n ensures s.chats[i].id != newChatId { }
  }

  // ---------------------------------------------------------------------------
  // The component state
  // ---------------------------------------------------------------------------

  /** The `chats` and `activeChatId` state of the application component. */
  class ChatApp {
    var chats: seq<Chat>
    var activeChatId: Option<int>

    function Snapshot(): State
      reads this
    {
      State(chats, activeChatId)
    }

    /** Both initialisers call `createNewChat()` on their own, so they read the clock twice. */
    constructor (chatTime: int, activeTime: int)
      ensures Snapshot() == Initial(chatTime, activeTime)
    {
      chats := [NewChat(chatTime)];
      activeChatId := Some(activeTime);
    }

    /** `selectChat`: the id is taken as given, even one that names no chat. */
    method SelectChat(id: Option<int>)
      modifies this
      ensures chats == old(chats) && activeChatId == id
    {
      activeChatId := id;
    }

    /**
     * The first transition of `handleSendMessage`. Blank text (empty after `trim`)
     * ends the turn with nothing changed. Otherwise the user message goes in and the
     * turn goes on with the active id as it was when the turn started.
     */
    method SendUserMessage(text: string, now: int, newChatTime: int, timestamp: int)
      returns (started: bool, captured: Option<int>)
      modifies this
      ensures started <==> Trim(text) != ""
      ensures captured == old(activeChatId)
      ensures !started ==> chats == old(chats) && activeChatId == old(activeChatId)
      ensures started ==> Snapshot() == WithUserMessage(old(Snapshot()), text, UserMessage(text, now, timestamp), newChatTime)
    {
      captured := activeChatId;
      if Trim(text) == "" {
        started := false;
        return;
      }
      started := true;
      var next := WithUserMessage(Snapshot(), text, UserMessage(text, now, timestamp), newChatTime);
      chats, activeChatId := next.chats, next.active;
    }

    /** The second transition: the "processing" placeholder goes to the turn's target chat. */
    method AddPlaceholder(captured: Option<int>, placeholder: Message)
      modifies this
      ensures chats == WithPlaceholder(old(chats), captured, placeholder)
      ensures activeChatId == old(activeChatId)
    {
      chats := WithPlaceholder(chats, captured, placeholder);
    }

    /** The third transition: the placeholder is replaced by the messages that settle the turn. */
    method ResolveTurn(captured: Option<int>, placeholderId: int, outcome: Outcome, now: int, timestamp: int)
      modifies this
      ensures chats == WithReply(old(chats), captured, placeholderId, Resolution(outcome, now, timestamp))
      ensures activeChatId == old(activeChatId)
    {
      chats := WithReply(chats, captured, placeholderId, Resolution(outcome, now, timestamp));
    }

    method DeleteChat(id: int)
      modifies this
      ensures Snapshot() == AfterDelete(old(Snapshot()), id)
    {
      chats := WithoutChat(chats, id);
      if activeChatId == Some(id) {
        activeChatId := None;
      }
    }

    method AddChat(c: Chat)
      modifies this
      ensures Snapshot() == AfterAdd(old(Snapshot()), c)
    {
      chats := chats + [c];
      activeChatId := Some(c.id);
    }

    method AutoSelect()
      modifies this
      ensures Snapshot() == AfterAutoSelect(old(Snapshot()))
    {
      if |chats| > 0 && !IsSet(activeChatId) {
        activeChatId := Some(chats[0].id);
      }
    }

  }
}
