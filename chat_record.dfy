/** The chat record `unstable_onSetAIState` builds from the AI state before
    handing it to `saveChat` (lib/chat/actions.tsx:310-336). `auth()` is the
    parameter `session`, `new Date()` the parameter `now`; `saveChat` itself is
    not part of this model. */
module ChatRecord {
  import opened ChatState

  /** The `Chat` record passed to `saveChat`. */
  datatype Chat = Chat(id: string, title: string, userId: string, createdAt: int, messages: seq<Message>, path: string)

  /** What one call of the hook amounts to: nothing, a record to save, or the
      `TypeError` of reading `messages[0].content` when there are no messages. */
  datatype SaveOutcome = Skip | Save(chat: Chat) | ThrowsTypeError

  /** The longest title kept. */
  const TitleLength: nat := 100

  function Min(a: int, b: int): int
  {
    if a <= b then a else b
  }

  function Clamp(i: int, len: nat): (r: nat)
    ensures r <= len
  {
    if i < 0 then 0 else if i > len then len else i
  }

  /** `s.substring(start, end)`: both bounds clamped into the string, and
      swapped when the start is past the end. */
  function Substring(s: string, start: int, end: int): (r: string)
    ensures |r| <= |s|
    ensures start <= end ==> r == s[Clamp(start, |s|)..Clamp(end, |s|)]
  {
    var a, b := Clamp(start, |s|), Clamp(end, |s|);
    if a <= b then s[a..b] else s[b..a]
  }

  /** `substring` takes its bounds in either order. */
  lemma SubstringSwap(s: string, a: int, b: int)
    ensures Substring(s, a, b) == Substring(s, b, a)
    ensures b <= a ==> Substring(s, a, b) == s[Clamp(b, |s|)..Clamp(a, |s|)]
  {
  }

  /** `substring(0, 100)` is the prefix of at most 100 characters: the whole
      string when it is no longer than that. */
  lemma TitlePrefix(content: string)
    ensures var t := Substring(content, 0, TitleLength);
      |t| == Min(TitleLength, |content|) && t <= content &&
      (|content| <= TitleLength ==> t == content)
  {
  }

  /** The fixed start of every chat path. */
  const PathPrefix: string := "/chat/"

  /** `/chat/${chatId}`. */
  function ChatPath(chatId: string): string
  {
    PathPrefix + chatId
  }

  /** Distinct chats are saved under distinct paths, and the path gives back the chat id. */
  lemma ChatPathInjective(a: string, b: string)
    ensures ChatPath(a)[|PathPrefix|..] == a
    ensures ChatPath(a) == ChatPath(b) <==> a == b
  {
  }

  /** `unstable_onSetAIState`: without a signed-in user nothing happens;
      otherwise the record carries the chat id, the signed-in user's id, the
      clock reading, the messages as they are, the path `/chat/<chatId>` and a
      title taken from the first message. */
  function OnSetAIState(session: Option<Session>, state: AIState, now: int): (r: SaveOutcome)
    ensures r.Skip? <==> !SignedIn(session)
    ensures r.ThrowsTypeError? <==> SignedIn(session) && state.messages == []
    ensures r.Save? ==>
      r.chat.id == state.chatId &&
      r.chat.userId == session.value.user.value.id &&
      r.chat.createdAt == now &&
      r.chat.messages == state.messages &&
      |r.chat.path| == |PathPrefix| + |state.chatId| &&
      r.chat.path[..|PathPrefix|] == PathPrefix && r.chat.path[|PathPrefix|..] == state.chatId &&
      r.chat.title <= state.messages[0].content &&
      |r.chat.title| == Min(TitleLength, |state.messages[0].content|)
  {
    if SignedIn(session) then
      if state.messages == [] then ThrowsTypeError
      else
        var title := Substring(state.messages[0].content, 0, TitleLength);
        TitlePrefix(state.messages[0].content);
        ChatPathInjective(state.chatId, state.chatId);
        Save(Chat(state.chatId, title, session.value.user.value.id, now, state.messages, ChatPath(state.chatId)))
    else Skip
  }
}
