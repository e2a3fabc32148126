/** The send path of `src/pages/ChatPage.tsx`: it creates a chat when none is
    open, appends the user's message, asks the therapy service for a reply and
    appends either the reply or an apology, around `isLoading` and
    `connectionError` flags. */
module ChatPage {
  import opened Wrappers
  import opened ChatTypes
  import opened ChatStore
  import opened LlmService

  const NewSessionTitle := "New Therapy Session"
  const UnexpectedError := "An unexpected error occurred. Please try again."
  const ConnectionApology := "I'm sorry, I'm having trouble connecting to the therapy service right now. "

  /** The `crypto.randomUUID()` values one send draws. */
  datatype FreshIds = FreshIds(chat: Uuid, user: Uuid, reply: Uuid, error: Uuid)

  function UserMessage(id: Uuid, content: string, now: int): Message {
    Message(id, User, content, now, None)
  }

  /** The `systemError` message appended when the service fails. */
  function ErrorReply(id: Uuid, error: string, now: int): Message {
    Message(id, SystemError, ConnectionApology + error, now, None)
  }

  /** `currentChat?.messages || []`. */
  function PriorMessages(current: Option<Chat>): seq<Message> {
    if current.Some? then current.value.messages else []
  }

  /** The chat `createNewChat('New Therapy Session', true)` makes. */
  function NewSessionChat(id: Uuid, now: int): Chat {
    Chat(id, NewSessionTitle, [], now, now, None, Some(true))
  }

  /** Everything one send determines: the store's chats and current chat, the
      service's session, the page's error banner and the history handed to
      the service. */
  datatype SendState = SendState(
    chats: seq<Chat>,
    current: Option<Chat>,
    session: Option<string>,
    connectionError: Option<string>,
    history: Option<seq<Message>>)

  /** The state `handleSendMessage` leads to from the given one. */
  function SendSpec(chats: seq<Chat>, current: Option<Chat>, session: Option<string>, error: Option<string>,
                    isLoading: bool, content: string, reply: ServerReply, ids: FreshIds, now: int): SendState
  {
    if isLoading then SendState(chats, current, session, error, None)
    else if current.Some? && current.value.id == "" then
      SendState(chats, current, session, Some(UnexpectedError), None)
    else
      var created := current.None?;
      var chatId := if created then ids.chat else current.value.id;
      var chats0 := if created then [NewSessionChat(ids.chat, now)] + chats else chats;
      var current0 := if created then Some(NewSessionChat(ids.chat, now)) else current;
      var session0 := if created then None else session;
      var user := UserMessage(ids.user, content, now);
      var history := PriorMessages(current) + [user];
      var res := Respond(history, session0, reply, ids.reply, now);
      var second := if res.Ok? then res.value else ErrorReply(ids.error, res.error, now);
      var chats1 := AddToMatching(chats0, chatId, user, now);
      SendState(
        AddToMatching(chats1, chatId, second, now),
        CurrentAfterAdd(CurrentAfterAdd(current0, chats0, chatId, user, now), chats1, chatId, second, now),
        SessionAfter(history, session0, reply),
        if res.Ok? then None else Some(res.error),
        Some(history))
  }

  /** A send while a reply is pending changes nothing. */
  lemma SendWhileLoadingIsNoOp(chats: seq<Chat>, current: Option<Chat>, session: Option<string>, error: Option<string>,
                               content: string, reply: ServerReply, ids: FreshIds, now: int)
    ensures SendSpec(chats, current, session, error, true, content, reply, ids, now)
      == SendState(chats, current, session, error, None)
  {
  }

  /** The history handed to the service is the open chat's messages followed
      by the new user message, so the service sees a well-formed history. */
  lemma {:induction false} HistoryEndsWithUserMessage(chats: seq<Chat>, current: Option<Chat>, session: Option<string>,
      error: Option<string>, content: string, reply: ServerReply, ids: FreshIds, now: int)
    requires current.None? || current.value.id != ""
    ensures var h := SendSpec(chats, current, session, error, false, content, reply, ids, now).history;
      h.Some? && h.value == PriorMessages(current) + [UserMessage(ids.user, content, now)]
      && WellFormedHistory(h.value)
  {
  }

  /** Every chat of the send's chat id gets exactly two messages appended: the
      user's, then the reply or, on failure, a `systemError` apology carrying
      the error text, which also fills the banner. All other chats, and the
      order of the list, stay as they were. */
  lemma {:induction false} SendAppendsTwoMessages(chats: seq<Chat>, current: Option<Chat>, session: Option<string>,
      error: Option<string>, content: string, reply: ServerReply, ids: FreshIds, now: int)
    requires current.Some? && current.value.id != ""
    ensures var s := SendSpec(chats, current, session, error, false, content, reply, ids, now);
      var res := Respond(PriorMessages(current) + [UserMessage(ids.user, content, now)], session, reply, ids.reply, now);
      var second := if res.Ok? then res.value else ErrorReply(ids.error, res.error, now);
      && |s.chats| == |chats|
      && (forall i :: 0 <= i < |chats| && chats[i].id == current.value.id ==>
            s.chats[i].messages == chats[i].messages + [UserMessage(ids.user, content, now), second])
      && (forall i :: 0 <= i < |chats| && chats[i].id != current.value.id ==> s.chats[i] == chats[i])
      && (res.Ok? ==> second.role == Assistant && s.connectionError == None)
      && (res.Err? ==> second.role == SystemError && second.content == ConnectionApology + res.error
                       && s.connectionError == Some(res.error))
  {
    var user := UserMessage(ids.user, content, now);
    var res := Respond(PriorMessages(current) + [user], session, reply, ids.reply, now);
    var second := if res.Ok? then res.value else ErrorReply(ids.error, res.error, now);
    var chatId := current.value.id;
    var chats1 := AddToMatching(chats, chatId, user, now);
    forall i | 0 <= i < |chats| && chats[i].id == chatId
      ensures AddToMatching(chats1, chatId, second, now)[i].messages == chats[i].messages + [user, second]
    {
      assert chats1[i] == WithMessage(chats[i], user, now);
    }
    RespondSpec(PriorMessages(current) + [user], session, reply, ids.reply, now);
  }

  /** `c` sits at index `k` of `chats` and is the only chat there with its id,
      as the fresh UUIDs the store hands out make every chat. */
  predicate SoleAt(chats: seq<Chat>, c: Chat, k: int) {
    0 <= k < |chats| && chats[k] == c
    && forall i :: 0 <= i < |chats| && chats[i].id == c.id ==> chats[i] == c
  }

  /** `addMessage` on a chat with a unique id appends to it alone, and the
      current chat, when it is that chat, becomes its updated copy. */
  lemma AddToSole(chats: seq<Chat>, c: Chat, k: int, m: Message, now: int)
    requires SoleAt(chats, c, k)
    ensures SoleAt(AddToMatching(chats, c.id, m, now), WithMessage(c, m, now), k)
    ensures LastWithId(chats, c.id) == Some(c)
    ensures CurrentAfterAdd(Some(c), chats, c.id, m, now) == Some(WithMessage(c, m, now))
  {
    var r := AddToMatching(chats, c.id, m, now);
    assert r[k] == WithMessage(c, m, now);
    assert forall i :: 0 <= i < |r| && r[i].id == c.id ==> chats[i].id == c.id;
  }

  /** With no chat open, a chat is created first and put at the head of the
      list; its history is the user message alone, so the service is asked to
      start a new conversation, and the first user message replaces the
      placeholder title. */
  lemma {:induction false} SendWithoutChatCreatesOne(chats: seq<Chat>, session: Option<string>, error: Option<string>,
      content: string, reply: ServerReply, ids: FreshIds, now: int)
    requires forall i :: 0 <= i < |chats| ==> chats[i].id != ids.chat
    ensures var s := SendSpec(chats, None, session, error, false, content, reply, ids, now);
      && |s.chats| == |chats| + 1 && s.chats[1..] == chats
      && s.chats[0].id == ids.chat && s.chats[0].title == AutoTitle(content)
      && |s.chats[0].messages| == 2 && s.chats[0].messages[0] == UserMessage(ids.user, content, now)
      && s.history == Some([UserMessage(ids.user, content, now)])
      && LlmService.RequestSent(s.history.value, None) == Some(LlmService.StartRequest(content))
      && s.session == (if Accepted(reply) then Some(reply.body.sessionId) else None)
      && s.current == Some(s.chats[0])
  {
    var user := UserMessage(ids.user, content, now);
    var c := NewSessionChat(ids.chat, now);
    var res := Respond([user], None, reply, ids.reply, now);
    var second := if res.Ok? then res.value else ErrorReply(ids.error, res.error, now);
    SendToNewChat(chats, session, error, content, reply, ids, now);
    NewChatSteps(chats, c, user, second, now);
  }

  /** Two messages added to a fresh chat at the head of the list: the
      first, from the user, titles it. */
  lemma NewChatSteps(chats: seq<Chat>, c: Chat, user: Message, second: Message, now: int)
    requires forall i :: 0 <= i < |chats| ==> chats[i].id != c.id
    requires c.messages == [] && user.role == User
    ensures var chats1 := AddToMatching([c] + chats, c.id, user, now);
      var c2 := WithMessage(WithMessage(c, user, now), second, now);
      && AddToMatching(chats1, c.id, second, now) == [c2] + chats
      && CurrentAfterAdd(CurrentAfterAdd(Some(c), [c] + chats, c.id, user, now), chats1, c.id, second, now) == Some(c2)
      && c2.id == c.id && c2.title == AutoTitle(user.content) && c2.messages == [user, second]
  {
    var c1 := WithMessage(c, user, now);
    assert c1.id == c.id && c1.messages == [user] && c1.title == AutoTitle(user.content);
    NewChatList(chats, c, user, now);
    NewChatList(chats, c1, second, now);
    NewChatCurrent(chats, c, user, now);
    NewChatCurrent(chats, c1, second, now);
  }

  /** One message added to a fresh chat at the head of the list. */
  lemma NewChatList(chats: seq<Chat>, c: Chat, m: Message, now: int)
    requires forall i :: 0 <= i < |chats| ==> chats[i].id != c.id
    ensures AddToMatching([c] + chats, c.id, m, now) == [WithMessage(c, m, now)] + chats
  {
    AddToMatchingNone(chats, c.id, m, now);
    AddToMatchingAppend([c], chats, c.id, m, now);
    AddToMatchingOne(c, m, now);
  }

  /** The fresh chat, current, stays current with the message added. */
  lemma NewChatCurrent(chats: seq<Chat>, c: Chat, m: Message, now: int)
    requires forall i :: 0 <= i < |chats| ==> chats[i].id != c.id
    ensures CurrentAfterAdd(Some(c), [c] + chats, c.id, m, now) == Some(WithMessage(c, m, now))
  {
    assert SoleAt([c] + chats, c, 0);
    AddToSole([c] + chats, c, 0, m, now);
  }

  /** `SendSpec` with no chat open, unfolded. */
  lemma SendToNewChat(chats: seq<Chat>, session: Option<string>, error: Option<string>,
      content: string, reply: ServerReply, ids: FreshIds, now: int)
    ensures var s := SendSpec(chats, None, session, error, false, content, reply, ids, now);
      var user := UserMessage(ids.user, content, now);
      var c := NewSessionChat(ids.chat, now);
      var res := Respond([user], None, reply, ids.reply, now);
      var second := if res.Ok? then res.value else ErrorReply(ids.error, res.error, now);
      var chats1 := AddToMatching([c] + chats, ids.chat, user, now);
      && s.chats == AddToMatching(chats1, ids.chat, second, now)
      && s.current == CurrentAfterAdd(CurrentAfterAdd(Some(c), [c] + chats, ids.chat, user, now), chats1, ids.chat, second, now)
      && s.history == Some([user])
  {
    assert PriorMessages(None) + [UserMessage(ids.user, content, now)] == [UserMessage(ids.user, content, now)];
  }

  /** `currentChat?.id`. */
  function CurrentId(current: Option<Chat>): Option<string> {
    if current.Some? then Some(current.value.id) else None
  }

  /** As written, the effect `useEffect(() => setConnectionError(null),
      [currentChat])` runs whenever the current chat object changes. */
  function ErrorAfterChatEffectAsWritten(error: Option<string>, before: Option<Chat>, after: Option<Chat>): Option<string> {
    if before != after then None else error
  }

  /** The evident intent: clear the banner when the user switches chats. */
  function ErrorAfterChatEffect(error: Option<string>, before: Option<Chat>, after: Option<Chat>): Option<string> {
    if CurrentId(before) != CurrentId(after) then None else error
  }

  /** As written, the banner a failed send sets is cleared at once: the same
      send appended the apology to the current chat, which changes it. */
  lemma {:induction false} FailedSendBannerClearedAsWritten(chats: seq<Chat>, current: Option<Chat>, k: int,
      session: Option<string>, error: Option<string>, content: string, reply: ServerReply, ids: FreshIds, now: int)
    requires current.Some? && current.value.id != "" && SoleAt(chats, current.value, k)
    requires !Accepted(reply)
    ensures var s := SendSpec(chats, current, session, error, false, content, reply, ids, now);
      s.connectionError.Some? && ErrorAfterChatEffectAsWritten(s.connectionError, current, s.current) == None
  {
    var c := current.value;
    var user := UserMessage(ids.user, content, now);
    var res := Respond(PriorMessages(current) + [user], session, reply, ids.reply, now);
    RespondSpec(PriorMessages(current) + [user], session, reply, ids.reply, now);
    var second := ErrorReply(ids.error, res.error, now);
    AddToSole(chats, c, k, user, now);
    var c1 := WithMessage(c, user, now);
    AddToSole(AddToMatching(chats, c.id, user, now), c1, k, second, now);
    var s := SendSpec(chats, current, session, error, false, content, reply, ids, now);
    assert s.current == Some(WithMessage(c1, second, now));
    assert |s.current.value.messages| == |c.messages| + 2;
  }

  /** Keyed on the chat's id, the effect keeps the banner a failed send sets. */
  lemma FailedSendBannerKept(chats: seq<Chat>, current: Option<Chat>, session: Option<string>,
      error: Option<string>, content: string, reply: ServerReply, ids: FreshIds, now: int)
    requires current.Some? && current.value.id != ""
    requires !Accepted(reply)
    ensures var s := SendSpec(chats, current, session, error, false, content, reply, ids, now);
      s.connectionError.Some? && ErrorAfterChatEffect(s.connectionError, current, s.current) == s.connectionError
  {
    var chatId := current.value.id;
    var user := UserMessage(ids.user, content, now);
    var res := Respond(PriorMessages(current) + [user], session, reply, ids.reply, now);
    assert res.Err?;
    var second := ErrorReply(ids.error, res.error, now);
    var chats1 := AddToMatching(chats, chatId, user, now);
    var mid := CurrentAfterAdd(current, chats, chatId, user, now);
    CurrentAfterAddKeepsId(current, chats, chatId, user, now);
    CurrentAfterAddKeepsId(mid, chats1, chatId, second, now);
  }

  class ChatPage {
    const store: Store
    var isLoading: bool
    var connectionError: Option<string>

    constructor(store: Store)
      ensures this.store == store && !isLoading && connectionError == None
    {
      this.store := store;
      isLoading := false;
      connectionError := None;
    }

    /** `handleSendMessage(content)`, with the server's reply and the fresh
        ids as inputs. `isLoading` is false afterwards whatever the outcome. */
    method HandleSendMessage(content: string, reply: ServerReply, ids: FreshIds, now: int)
      returns (history: Option<seq<Message>>)
      modifies this, store, store.api
      ensures var s := SendSpec(old(store.chats), old(store.currentChat), old(store.api.sessionId),
                                old(connectionError), old(isLoading), content, reply, ids, now);
        && store.chats == s.chats && store.currentChat == s.current && store.api.sessionId == s.session
        && connectionError == s.connectionError && history == s.history
      ensures isLoading == old(isLoading)
      ensures store.settings == old(store.settings) && store.isSidebarCollapsed == old(store.isSidebarCollapsed)
    {
      if isLoading {
        history := None;
        return;
      }
      connectionError := None;
      var before := store.currentChat;
      var chatId: string;
      if store.currentChat.None? {
        var newChat := store.CreateNewChat(Some(NewSessionTitle), true, ids.chat, now);
        chatId := newChat.id;
      } else {
        chatId := store.currentChat.value.id;
      }
      if chatId == "" {
        connectionError := Some(UnexpectedError);
        isLoading := false;
        history := None;
        return;
      }
      var userMessage := UserMessage(ids.user, content, now);
      store.AddMessage(chatId, userMessage, now);
      isLoading := true;
      var allMessages := PriorMessages(before) + [userMessage];
      history := Some(allMessages);
      var response, _ := GenerateResponse(store.api, allMessages, reply, ids.reply, now);
      if response.Ok? {
        store.AddMessage(chatId, response.value, now);
      } else {
        connectionError := Some(response.error);
        store.AddMessage(chatId, ErrorReply(ids.error, response.error, now), now);
      }
      isLoading := false;
    }

    /** The effect that clears the banner when the user moves to another chat
        (keyed on the chat's id; see `ErrorAfterChatEffect`). */
    method OnCurrentChatChanged(before: Option<Chat>)
      modifies this
      ensures connectionError == ErrorAfterChatEffect(old(connectionError), before, store.currentChat)
      ensures isLoading == old(isLoading)
    {
      if CurrentId(before) != CurrentId(store.currentChat) {
        connectionError := None;
      }
    }
  }
}
