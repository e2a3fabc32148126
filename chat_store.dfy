/** The global chat store of `src/store/index.ts`: an ordered list of chats,
    the chat on screen, the settings and the sidebar flag. Every action
    replaces some of these fields; the store shares the therapy service
    singleton, whose session it resets when the chat context changes. */
module ChatStore {
  import opened Wrappers
  import opened ChatTypes
  import opened Text
  import Seqs
  import LlmService

  datatype Settings = Settings(darkMode: bool, notifications: bool, apiEndpoint: string, userId: Option<string>)

  /** `Partial<Settings>`: `None` means the key is absent. */
  datatype SettingsPatch = SettingsPatch(
    darkMode: Option<bool>, notifications: Option<bool>, apiEndpoint: Option<string>, userId: Option<string>)

  /** `Partial<Chat>` without `updatedAt`, which `updateChat` always stamps. */
  datatype ChatPatch = ChatPatch(
    id: Option<string>,
    title: Option<string>,
    messages: Option<seq<Message>>,
    createdAt: Option<int>,
    sessionId: Option<string>,
    isTherapySession: Option<bool>)

  const DefaultChatTitle := "New Conversation"
  const DefaultApiEndpoint := "http://localhost:8000"
  /** How many UTF-16 code units of the first user message become the title. */
  const TitleLength := 50

  /** `title || 'New Conversation'`: an absent or empty title gets the default. */
  function ChatTitle(title: Option<string>): (t: string)
    ensures title.Some? && title.value != "" ==> t == title.value
    ensures title.None? || title.value == "" ==> t == DefaultChatTitle
  {
    if title.Some? && title.value != "" then title.value else DefaultChatTitle
  }

  /** The title derived from a first user message: the message itself when
      it is at most 50 code units long; otherwise its longest prefix within
      50 code units followed by "...". */
  function AutoTitle(content: string): string {
    Prefix(content, TitleLength) + (if Length(content) > TitleLength then "..." else "")
  }

  lemma AutoTitleSpec(content: string)
    ensures Length(content) <= TitleLength ==> AutoTitle(content) == content
    ensures Length(content) > TitleLength ==>
      var t := AutoTitle(content);
      var k := |t| - 3;
      && 0 <= k < |content| && t[..k] == content[..k] && t[k..] == "..."
      && (Length(t[..k]) == TitleLength || (Length(t[..k]) == TitleLength - 1 && CodeUnits(content[k]) == 2))
  {
    var p := Prefix(content, TitleLength);
    if Length(content) > TitleLength {
      assert AutoTitle(content)[..|p|] == p;
    }
  }

  /** For text inside the Basic Multilingual Plane the title is the first 50
      characters, with "..." exactly when something was cut off. */
  lemma AutoTitleOfPlainText(content: string)
    requires forall i :: 0 <= i < |content| ==> CodeUnits(content[i]) == 1
    ensures |content| <= TitleLength ==> AutoTitle(content) == content
    ensures |content| > TitleLength ==> AutoTitle(content) == content[..TitleLength] + "..."
  {
    LengthOfPlainText(content);
    PrefixOfPlainText(content, TitleLength);
  }

  /** The chat after `addMessage` appended `m` to it at time `now`. */
  function WithMessage(c: Chat, m: Message, now: int): Chat {
    c.(title := if c.messages == [] && m.role == User then AutoTitle(m.content) else c.title,
       messages := c.messages + [m],
       updatedAt := now,
       sessionId := if CarriesSessionId(m) then m.metadata.value.sessionId else c.sessionId)
  }

  /** What `addMessage` does to one chat: the message goes last, the title is
      rewritten only for a first message from the user, the session id is
      replaced only when the message carries one, and nothing else changes
      but the update time. */
  lemma WithMessageSpec(c: Chat, m: Message, now: int)
    ensures var r := WithMessage(c, m, now);
      && r.messages == c.messages + [m] && r.messages[|r.messages| - 1] == m
      && r.id == c.id && r.createdAt == c.createdAt && r.isTherapySession == c.isTherapySession
      && r.updatedAt == now
      && (r.title != c.title ==> c.messages == [] && m.role == User)
      && (c.messages == [] && m.role == User ==> r.title == AutoTitle(m.content))
      && (r.sessionId == if CarriesSessionId(m) then m.metadata.value.sessionId else c.sessionId)
  {
  }

  /** `{ ...chat, ...updates, updatedAt: now }`. */
  function ApplyPatch(c: Chat, p: ChatPatch, now: int): (r: Chat)
    ensures r.updatedAt == now
    ensures r.id == p.id.GetOr(c.id) && r.title == p.title.GetOr(c.title)
    ensures r.messages == p.messages.GetOr(c.messages) && r.createdAt == p.createdAt.GetOr(c.createdAt)
    ensures r.sessionId == (if p.sessionId.Some? then p.sessionId else c.sessionId)
    ensures r.isTherapySession == (if p.isTherapySession.Some? then p.isTherapySession else c.isTherapySession)
  {
    Chat(p.id.GetOr(c.id), p.title.GetOr(c.title), p.messages.GetOr(c.messages),
      p.createdAt.GetOr(c.createdAt), now,
      if p.sessionId.Some? then p.sessionId else c.sessionId,
      if p.isTherapySession.Some? then p.isTherapySession else c.isTherapySession)
  }

  /** A patch with no keys changes nothing but the update time. */
  lemma EmptyPatchOnlyStamps(c: Chat, now: int)
    ensures ApplyPatch(c, ChatPatch(None, None, None, None, None, None), now) == c.(updatedAt := now)
  {
  }

  /** `{ ...settings, ...newSettings }`. */
  function MergeSettings(s: Settings, p: SettingsPatch): Settings {
    Settings(p.darkMode.GetOr(s.darkMode), p.notifications.GetOr(s.notifications),
      p.apiEndpoint.GetOr(s.apiEndpoint), if p.userId.Some? then p.userId else s.userId)
  }

  /** Merging overwrites exactly the keys the patch gives; applying the same
      patch again changes nothing. */
  lemma {:induction false} MergeSettingsSpec(s: Settings, p: SettingsPatch)
    ensures p.darkMode.Some? ==> MergeSettings(s, p).darkMode == p.darkMode.value
    ensures p.darkMode.None? ==> MergeSettings(s, p).darkMode == s.darkMode
    ensures p.notifications.Some? ==> MergeSettings(s, p).notifications == p.notifications.value
    ensures p.notifications.None? ==> MergeSettings(s, p).notifications == s.notifications
    ensures p.apiEndpoint.Some? ==> MergeSettings(s, p).apiEndpoint == p.apiEndpoint.value
    ensures p.apiEndpoint.None? ==> MergeSettings(s, p).apiEndpoint == s.apiEndpoint
    ensures p.userId.Some? ==> MergeSettings(s, p).userId == p.userId
    ensures p.userId.None? ==> MergeSettings(s, p).userId == s.userId
    ensures MergeSettings(MergeSettings(s, p), p) == MergeSettings(s, p)
  {
  }

  /** `chats.map(...)` inside `addMessage`. */
  function AddToMatching(chats: seq<Chat>, chatId: string, m: Message, now: int): (r: seq<Chat>)
    ensures |r| == |chats|
    ensures forall i :: 0 <= i < |r| ==>
      r[i] == if chats[i].id == chatId then WithMessage(chats[i], m, now) else chats[i]
  {
    seq(|chats|, i requires 0 <= i < |chats| => if chats[i].id == chatId then WithMessage(chats[i], m, now) else chats[i])
  }

  /** `chats.map(...)` inside `updateChat`. */
  function PatchMatching(chats: seq<Chat>, chatId: string, p: ChatPatch, now: int): (r: seq<Chat>)
    ensures |r| == |chats|
    ensures forall i :: 0 <= i < |r| ==>
      r[i] == if chats[i].id == chatId then ApplyPatch(chats[i], p, now) else chats[i]
  {
    seq(|chats|, i requires 0 <= i < |chats| => if chats[i].id == chatId then ApplyPatch(chats[i], p, now) else chats[i])
  }

  /** The last chat of the list with the given id: `addMessage` hands each
      matching chat to `currentChat` in turn, so the last one stays. */
  function LastWithId(chats: seq<Chat>, chatId: string): (r: Option<Chat>)
    ensures r.None? <==> forall i :: 0 <= i < |chats| ==> chats[i].id != chatId
    ensures r.Some? ==> exists i :: (0 <= i < |chats| && chats[i] == r.value && chats[i].id == chatId
                                     && forall j :: i < j < |chats| ==> chats[j].id != chatId)
  {
    if chats == [] then None
    else if chats[|chats| - 1].id == chatId then Some(chats[|chats| - 1])
    else LastWithId(chats[..|chats| - 1], chatId)
  }

  /** The current chat after `addMessage`: when its id matches, it becomes the
      updated copy of the last matching chat of the list. */
  function CurrentAfterAdd(current: Option<Chat>, chats: seq<Chat>, chatId: string, m: Message, now: int): Option<Chat> {
    if IsCurrent(current, chatId) && LastWithId(chats, chatId).Some?
    then Some(WithMessage(LastWithId(chats, chatId).value, m, now))
    else current
  }

  /** `addMessage` works chat by chat. */
  lemma AddToMatchingAppend(a: seq<Chat>, b: seq<Chat>, chatId: string, m: Message, now: int)
    ensures AddToMatching(a + b, chatId, m, now) == AddToMatching(a, chatId, m, now) + AddToMatching(b, chatId, m, now)
  {
  }

  /** `addMessage` on the one chat with the id. */
  lemma AddToMatchingOne(c: Chat, m: Message, now: int)
    ensures AddToMatching([c], c.id, m, now) == [WithMessage(c, m, now)]
  {
  }

  /** `addMessage` leaves a list without the id unchanged. */
  lemma AddToMatchingNone(chats: seq<Chat>, chatId: string, m: Message, now: int)
    requires forall i :: 0 <= i < |chats| ==> chats[i].id != chatId
    ensures AddToMatching(chats, chatId, m, now) == chats
  {
  }

  /** `addMessage` never changes which chat is current. */
  lemma CurrentAfterAddKeepsId(current: Option<Chat>, chats: seq<Chat>, chatId: string, m: Message, now: int)
    ensures CurrentAfterAdd(current, chats, chatId, m, now).Some? == current.Some?
    ensures current.Some? ==> CurrentAfterAdd(current, chats, chatId, m, now).value.id == current.value.id
  {
  }

  /** `chats.filter(chat => chat.id !== chatId)`. */
  function WithoutId(chats: seq<Chat>, chatId: string): seq<Chat> {
    Seqs.Filter(chats, (c: Chat) => c.id != chatId)
  }

  /** Deleting removes every chat with that id and keeps each other chat, in
      the original order. */
  lemma DeleteSpec(chats: seq<Chat>, chatId: string)
    ensures forall i :: 0 <= i < |WithoutId(chats, chatId)| ==> WithoutId(chats, chatId)[i].id != chatId
    ensures forall i :: 0 <= i < |chats| && chats[i].id != chatId ==> chats[i] in WithoutId(chats, chatId)
    ensures Seqs.IsSubsequence(WithoutId(chats, chatId), chats)
    ensures (forall i :: 0 <= i < |chats| ==> chats[i].id != chatId) ==> WithoutId(chats, chatId) == chats
    ensures forall c :: multiset(WithoutId(chats, chatId))[c] == if c.id == chatId then 0 else multiset(chats)[c]
  {
    Seqs.FilterIsSubsequence(chats, (c: Chat) => c.id != chatId);
    Seqs.FilterMultiset(chats, (c: Chat) => c.id != chatId);
    if forall i :: 0 <= i < |chats| ==> chats[i].id != chatId {
      Seqs.FilterAll(chats, (c: Chat) => c.id != chatId);
    }
  }

  /** `import.meta.env.VITE_API_URL || 'http://localhost:8000'`. */
  function ApiEndpoint(env: string): string {
    if env != "" then env else DefaultApiEndpoint
  }

  /** `currentChat?.id === chatId`. */
  predicate IsCurrent(current: Option<Chat>, chatId: string) {
    current.Some? && current.value.id == chatId
  }

  class Store {
    /** The therapy service singleton the actions reset. */
    const api: LlmService.TherapyAPIService
    var isSidebarCollapsed: bool
    var chats: seq<Chat>
    var currentChat: Option<Chat>
    var settings: Settings

    /** The initial state: sidebar open, no chats, dark mode and
        notifications on, the endpoint from the environment. */
    constructor(api: LlmService.TherapyAPIService, env: string)
      ensures this.api == api
      ensures !isSidebarCollapsed && chats == [] && currentChat == None
      ensures settings == Settings(true, true, ApiEndpoint(env), None)
    {
      this.api := api;
      isSidebarCollapsed := false;
      chats := [];
      currentChat := None;
      settings := Settings(true, true, ApiEndpoint(env), None);
    }

    /** `toggleSidebarCollapse`: flips the flag, so two toggles restore it. */
    method ToggleSidebarCollapse()
      modifies this
      ensures isSidebarCollapsed == !old(isSidebarCollapsed)
      ensures chats == old(chats) && currentChat == old(currentChat) && settings == old(settings)
    {
      isSidebarCollapsed := !isSidebarCollapsed;
    }

    /** `setCurrentChat`: the session is reset when the new chat is absent or
        has no session id. */
    method SetCurrentChat(chat: Option<Chat>)
      modifies this, api
      ensures currentChat == chat
      ensures chats == old(chats) && settings == old(settings) && isSidebarCollapsed == old(isSidebarCollapsed)
      ensures api.sessionId == if chat.None? || !LlmService.IsActive(chat.value.sessionId)
                               then None else old(api.sessionId)
    {
      currentChat := chat;
      if chat.None? || !LlmService.IsActive(chat.value.sessionId) {
        api.ResetSession();
      }
    }

    /** `createNewChat`: a chat with no messages is prepended and made
        current, and the session is reset. */
    method CreateNewChat(title: Option<string>, isTherapySession: bool, freshId: Uuid, now: int)
      returns (newChat: Chat)
      modifies this, api
      ensures newChat == Chat(freshId, ChatTitle(title), [], now, now, None, Some(isTherapySession))
      ensures chats == [newChat] + old(chats) && chats[1..] == old(chats)
      ensures currentChat == Some(newChat)
      ensures api.sessionId == None
      ensures settings == old(settings) && isSidebarCollapsed == old(isSidebarCollapsed)
    {
      newChat := Chat(freshId, ChatTitle(title), [], now, now, None, Some(isTherapySession));
      chats := [newChat] + chats;
      currentChat := Some(newChat);
      api.ResetSession();
    }

    /** `addMessage`: every chat with the id gets the message appended; the
        current chat follows when its id matches. */
    method AddMessage(chatId: string, message: Message, now: int)
      modifies this
      ensures chats == AddToMatching(old(chats), chatId, message, now)
      ensures currentChat == CurrentAfterAdd(old(currentChat), old(chats), chatId, message, now)
      ensures settings == old(settings) && isSidebarCollapsed == old(isSidebarCollapsed)
    {
      var last := LastWithId(chats, chatId);
      if IsCurrent(currentChat, chatId) && last.Some? {
        currentChat := Some(WithMessage(last.value, message, now));
      }
      chats := AddToMatching(chats, chatId, message, now);
    }

    /** `addChat`: prepends a chat as it is. */
    method AddChat(chat: Chat)
      modifies this
      ensures chats == [chat] + old(chats)
      ensures currentChat == old(currentChat) && settings == old(settings)
      ensures isSidebarCollapsed == old(isSidebarCollapsed)
    {
      chats := [chat] + chats;
    }

    /** `updateChat`: the patch is applied to every chat with the id and,
        separately, to the current chat when its id matches. */
    method UpdateChat(chatId: string, updates: ChatPatch, now: int)
      modifies this
      ensures chats == PatchMatching(old(chats), chatId, updates, now)
      ensures currentChat == if IsCurrent(old(currentChat), chatId)
                             then Some(ApplyPatch(old(currentChat).value, updates, now))
                             else old(currentChat)
      ensures settings == old(settings) && isSidebarCollapsed == old(isSidebarCollapsed)
    {
      var updatedChats := PatchMatching(chats, chatId, updates, now);
      var updatedCurrentChat := if IsCurrent(currentChat, chatId)
                                then Some(ApplyPatch(currentChat.value, updates, now))
                                else currentChat;
      chats, currentChat := updatedChats, updatedCurrentChat;
    }

    /** `renameChat`: an `updateChat` whose patch holds only the title. */
    method RenameChat(chatId: string, newTitle: string, now: int)
      modifies this
      ensures |chats| == |old(chats)|
      ensures forall i :: 0 <= i < |chats| ==>
        chats[i] == if old(chats)[i].id == chatId then old(chats)[i].(title := newTitle, updatedAt := now) else old(chats)[i]
      ensures currentChat == if IsCurrent(old(currentChat), chatId)
                             then Some(old(currentChat).value.(title := newTitle, updatedAt := now))
                             else old(currentChat)
      ensures settings == old(settings) && isSidebarCollapsed == old(isSidebarCollapsed)
    {
      UpdateChat(chatId, ChatPatch(None, Some(newTitle), None, None, None, None), now);
    }

    /** `deleteChat`: every chat with the id goes; the current chat is cleared,
        and the session reset, exactly when it is the deleted one. */
    method DeleteChat(chatId: string)
      modifies this, api
      ensures chats == WithoutId(old(chats), chatId)
      ensures currentChat == if IsCurrent(old(currentChat), chatId) then None else old(currentChat)
      ensures api.sessionId == if IsCurrent(old(currentChat), chatId) then None else old(api.sessionId)
      ensures settings == old(settings) && isSidebarCollapsed == old(isSidebarCollapsed)
    {
      var wasCurrent := IsCurrent(currentChat, chatId);
      chats := WithoutId(chats, chatId);
      if wasCurrent {
        currentChat := None;
        api.ResetSession();
      }
    }

    /** `updateSettings`. */
    method UpdateSettings(newSettings: SettingsPatch)
      modifies this
      ensures settings == MergeSettings(old(settings), newSettings)
      ensures chats == old(chats) && currentChat == old(currentChat)
      ensures isSidebarCollapsed == old(isSidebarCollapsed)
    {
      settings := MergeSettings(settings, newSettings);
    }
  }
}
