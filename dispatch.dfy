/** The state changes `submitUserMessage` makes (lib/chat/actions.tsx:51-268):
    the user commit, the `text` callback with its lazily created stream, and
    the `render` of each of the four functions. The calls into the model are
    not modelled; the callbacks are methods, called in whatever order the
    caller chooses, and each fresh id `nanoid()` would give is a parameter. */
module Dispatch {
  import opened ChatState

  /** The streamable value `createStreamableValue('')` returns: the deltas
      pushed through `update`, in order, and whether `done` was called. Only
      what the callback does to it is modelled. */
  class TextStream {
    var buffer: seq<string>
    var done: bool

    constructor ()
      ensures buffer == [] && !done
    {
      buffer := [];
      done := false;
    }

    method Update(delta: string)
      modifies this
      ensures buffer == old(buffer) + [delta] && done == old(done)
    {
      buffer := buffer + [delta];
    }

    method Done()
      modifies this
      ensures done && buffer == old(buffer)
    {
      done := true;
    }
  }

  /** `<BotMessage content={textStream.value} />`: a node showing a stream. */
  datatype Node = BotMessageNode(content: TextStream)

  /** One turn: the mutable AI state and the closure variables of the
      `text` callback. */
  class Turn {
    /** What `aiState.get()` returns. */
    var state: AIState
    /** Whether `aiState.done` has been called in this turn. */
    var stateDone: bool
    var textStream: TextStream?
    var textNode: Option<Node>

    /** The node exists exactly when the stream does, and it shows that stream. */
    ghost predicate Valid()
      reads this
    {
      (textStream == null <==> textNode.None?) &&
      (textStream != null ==> textNode == Some(BotMessageNode(textStream)))
    }

    /** `getMutableAIState()` at the start of the turn; both closure variables undefined. */
    constructor (initial: AIState)
      ensures Valid()
      ensures state == initial && !stateDone && textStream == null
    {
      state := initial;
      stateDone := false;
      textStream := null;
      textNode := None;
    }

    /** `aiState.update`: the user's message is appended before the model is
        called; the chat id and all earlier messages stay as they were. */
    method SubmitUserMessage(content: string, id: string)
      requires Valid()
      modifies this`state
      ensures Valid()
      ensures state == old(state).(messages := old(state.messages) + [Message(id, User, content, None)])
    {
      state := state.(messages := state.messages + [Message(id, User, content, None)]);
    }

    /** The `text` callback. The first call creates the stream and its node;
        every call returns that node. Before `done` the delta is pushed and the
        messages are untouched; on `done` the stream is closed and one
        `assistant` message with the full content is committed. */
    method OnText(content: string, done: bool, delta: string, id: string) returns (node: Node)
      requires Valid()
      modifies this, textStream
      ensures Valid()
      ensures old(textStream) == null ==> fresh(textStream)
      ensures old(textStream) != null ==> textStream == old(textStream) && textNode == old(textNode)
      ensures textNode == Some(node) && node.content == textStream
      ensures textStream.buffer ==
                old(if textStream == null then [] else textStream.buffer) + (if done then [] else [delta])
      ensures textStream.done == (done || old(textStream != null && textStream.done))
      ensures state == if done then old(state).(messages := old(state.messages) + [Message(id, Assistant, content, None)])
                       else old(state)
      ensures stateDone == (done || old(stateDone))
    {
      if textStream == null {
        textStream := new TextStream();
        textNode := Some(BotMessageNode(textStream));
      }
      if done {
        textStream.Done();
        state := state.(messages := state.messages + [Message(id, Assistant, content, None)]);
        stateDone := true;
      } else {
        textStream.Update(delta);
      }
      node := textNode.value;
    }

    /** `aiState.done` with one more `function` message, as every function's
        `render` does after its settling delay. */
    method CommitFunctionMessage(f: ChatFunction, arg: string, id: string)
      requires Valid()
      modifies this`state, this`stateDone
      ensures Valid()
      ensures state == old(state).(messages := old(state.messages) + [FunctionMessage(id, f, arg)])
      ensures stateDone
    {
      state := state.(messages := state.messages + [FunctionMessage(id, f, arg)]);
      stateDone := true;
    }

    /** `functions.askQuestion.render`: commits `question` under `askQuestion`. */
    method RenderAskQuestion(question: string, id: string) returns (card: Fragment<string>)
      requires Valid()
      modifies this`state, this`stateDone
      ensures Valid()
      ensures state == old(state).(messages := old(state.messages) + [Message(id, Function, question, Some("askQuestion"))])
      ensures stateDone
      ensures card == SkeletonCard(Prop(QuestionProp, question))
    {
      CommitFunctionMessage(AskQuestion, question, id);
      card := AskQuestion.ResultCard(question);
    }

    /** `functions.provideExplanation.render`: commits `topic` under `provideExplanation`. */
    method RenderProvideExplanation(topic: string, id: string) returns (card: Fragment<string>)
      requires Valid()
      modifies this`state, this`stateDone
      ensures Valid()
      ensures state == old(state).(messages := old(state.messages) + [Message(id, Function, topic, Some("provideExplanation"))])
      ensures stateDone
      ensures card == SkeletonCard(Prop(TopicProp, topic))
    {
      CommitFunctionMessage(ProvideExplanation, topic, id);
      card := ProvideExplanation.ResultCard(topic);
    }

    /** `functions.startPracticeSession.render`: commits `concept` under `startPracticeSession`. */
    method RenderStartPracticeSession(concept: string, id: string) returns (card: Fragment<string>)
      requires Valid()
      modifies this`state, this`stateDone
      ensures Valid()
      ensures state == old(state).(messages := old(state.messages) + [Message(id, Function, concept, Some("startPracticeSession"))])
      ensures stateDone
      ensures card == SkeletonCard(Prop(ConceptProp, concept))
    {
      CommitFunctionMessage(StartPracticeSession, concept, id);
      card := StartPracticeSession.ResultCard(concept);
    }

    /** `functions.recommendResources.render`: commits `topic` under `recommendResources`. */
    method RenderRecommendResources(topic: string, id: string) returns (card: Fragment<string>)
      requires Valid()
      modifies this`state, this`stateDone
      ensures Valid()
      ensures state == old(state).(messages := old(state.messages) + [Message(id, Function, topic, Some("recommendResources"))])
      ensures stateDone
      ensures card == SkeletonCard(Prop(TopicProp, topic))
    {
      CommitFunctionMessage(RecommendResources, topic, id);
      card := RecommendResources.ResultCard(topic);
    }
  }
}
