/** How a message committed during a live turn looks when the chat is
    reloaded through `getUIStateFromAIState`. The function declarations and
    the projector's name dispatch are written independently in
    lib/chat/actions.tsx, and they disagree: `askQuestion` is declared
    (line 125) but has no projector branch, `exploreNewTopic` has a projector
    branch (line 358) but is not declared, and every function stores its raw
    argument (e.g. line 181) which the projector hands to `JSON.parse`
    (line 348). The lemmas here state those facts. */
module Reload {
  import opened ChatState
  import opened Projection
  import Dispatch

  /** The name `exploreNewTopic` reaches the projector but no declared function carries it. */
  lemma ExploreNewTopicNotDeclared<J>(f: ChatFunction, id: string, content: string, parse: string -> Option<J>)
    ensures f.Key() != "exploreNewTopic"
    ensures Display(Message(id, Function, content, Some("exploreNewTopic")), parse) == Some(SkeletonCard(NoAttr))
  {
  }

  /** On reload, a committed function message shows as `null` exactly when it
      came from `askQuestion`; every other function's message shows the same
      card its `render` returned, but holding `JSON.parse` of the stored raw
      argument instead of the argument, and makes the projection throw when
      that parse throws. */
  lemma ReloadedFunctionMessage<J>(f: ChatFunction, id: string, arg: string, parse: string -> Option<J>)
    ensures Display(FunctionMessage(id, f, arg), parse) == Some(Null) <==> f == AskQuestion
    ensures f != AskQuestion ==>
      Display(FunctionMessage(id, f, arg), parse) ==
        match parse(arg)
        case None => None
        case Some(v) => Some(f.ResultCard(v))
  {
  }

  /** After a function's commit, reloading the chat gives the earlier entries
      plus one entry for the new message, at the next index: `null` for
      `askQuestion`, otherwise the function's card around the parsed argument;
      and the whole reload throws when that parse throws. */
  lemma ReloadAfterFunctionCommit<J>(s: AIState, f: ChatFunction, id: string, arg: string, parse: string -> Option<J>)
    requires GetUIStateFromAIState(s, parse).Ok?
    ensures var before := GetUIStateFromAIState(s, parse).value;
      var after := GetUIStateFromAIState(s.(messages := s.messages + [FunctionMessage(id, f, arg)]), parse);
      var next := EntryId(s.chatId, |before|);
      if f == AskQuestion then after == Ok(before + [UIEntry(next, Null)])
      else match parse(arg)
        case None => after == Err(arg)
        case Some(v) => after == Ok(before + [UIEntry(next, f.ResultCard(v))])
  {
    ProjectionAppend(s, FunctionMessage(id, f, arg), parse);
    ReloadedFunctionMessage(f, id, arg, parse);
  }

  /** The user commit and the assistant commit reload as the plain text
      fragments the live turn showed, at the next index. */
  lemma ReloadAfterTextCommit<J>(s: AIState, id: string, content: string, fromUser: bool, parse: string -> Option<J>)
    requires GetUIStateFromAIState(s, parse).Ok?
    ensures var before := GetUIStateFromAIState(s, parse).value;
      var m := Message(id, if fromUser then User else Assistant, content, None);
      GetUIStateFromAIState(s.(messages := s.messages + [m]), parse) ==
        Ok(before + [UIEntry(EntryId(s.chatId, |before|), if fromUser then UserText(content) else BotText(content))])
  {
    ProjectionAppend(s, Message(id, if fromUser then User else Assistant, content, None), parse);
  }

  /** A turn driven through the callbacks in an order the caller chooses:
      the user's message, two text deltas, the final text, then a
      `provideExplanation` call (so `aiState.done` is called twice). The text
      callback returns one node throughout, exactly three messages are
      committed, in order, and the live card holds the raw topic. */
  method ExplainPhotosynthesis() returns (log: seq<Message>, sameNode: bool, deltas: seq<string>, card: Fragment<string>)
    ensures log == [Message("m1", User, "Explain photosynthesis", None),
                    Message("m2", Assistant, "Plants make food from light.", None),
                    Message("m3", Function, "photosynthesis", Some("provideExplanation"))]
    ensures sameNode
    ensures deltas == ["Plants make food ", "from light."]
    ensures card == SkeletonCard(Prop(TopicProp, "photosynthesis"))
  {
    var turn := new Dispatch.Turn(AIState("chat", []));
    turn.SubmitUserMessage("Explain photosynthesis", "m1");
    var n1 := turn.OnText("Plants make food ", false, "Plants make food ", "unused1");
    var n2 := turn.OnText("Plants make food from light.", false, "from light.", "unused2");
    var n3 := turn.OnText("Plants make food from light.", true, "", "m2");
    card := turn.RenderProvideExplanation("photosynthesis", "m3");
    log := turn.state.messages;
    sameNode := n1 == n2 && n2 == n3;
    deltas := n3.content.buffer;
  }
}
