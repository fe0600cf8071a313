/** The durable chat state (`AIState`) of lib/chat/actions.tsx, the set of
    functions (tools) the model may call, and the renderable fragments that both
    the live turn and the reload projection produce. */
module ChatState {

  datatype Option<+T> = None | Some(value: T)

  datatype Result<+T, +E> = Ok(value: T) | Err(error: E)

  /** The six roles a message may carry. */
  datatype Role = User | Assistant | System | Function | Data | Tool

  /** One entry of the turn log; `name` is the optional tool key. */
  datatype Message = Message(id: string, role: Role, content: string, name: Option<string>)

  /** The serializable session state: its identity and its ordered messages. */
  datatype AIState = AIState(chatId: string, messages: seq<Message>)

  /** The signed-in user and the session `auth()` yields. */
  datatype AuthUser = AuthUser(id: string)
  datatype Session = Session(user: Option<AuthUser>)

  /** `session && session.user`: a session is present and has a user. */
  predicate SignedIn(session: Option<Session>)
  {
    session.Some? && session.value.user.Some?
  }

  /** Which property the skeleton card is given, as in `<StockSkeleton topic={..} />`. */
  datatype PropKey = QuestionProp | TopicProp | ConceptProp

  /** A card either bare or with one property holding a value of type A. */
  datatype Attr<+A> = NoAttr | Prop(key: PropKey, value: A)

  /** The renderable fragments: `UserMessage`, `BotMessage` with a fixed text,
      a `BotCard` around a `StockSkeleton`, and `null`. */
  datatype Fragment<+A> = UserText(text: string) | BotText(text: string) | SkeletonCard(attr: Attr<A>) | Null

  /** The four functions declared to the model. */
  datatype ChatFunction = AskQuestion | ProvideExplanation | StartPracticeSession | RecommendResources
  {
    /** The key under which the function is declared and which it writes into `name`. */
    function Key(): string
    {
      match this
      case AskQuestion => "askQuestion"
      case ProvideExplanation => "provideExplanation"
      case StartPracticeSession => "startPracticeSession"
      case RecommendResources => "recommendResources"
    }

    /** The property the function's final card passes its argument as. */
    function Param(): PropKey
    {
      match this
      case AskQuestion => QuestionProp
      case ProvideExplanation => TopicProp
      case StartPracticeSession => ConceptProp
      case RecommendResources => TopicProp
    }

    /** The card a function's `render` returns after committing its message. */
    function ResultCard<A>(arg: A): Fragment<A>
    {
      SkeletonCard(Prop(Param(), arg))
    }
  }

  /** The message a function's `render` commits: role `function`, its own key as
      `name`, and the argument string as it arrived. */
  function FunctionMessage(id: string, f: ChatFunction, arg: string): (m: Message)
    ensures m.role == Function && m.content == arg
    ensures forall g: ChatFunction :: m.name == Some(g.Key()) <==> g == f
  {
    Message(id, Function, arg, Some(f.Key()))
  }

  /** Distinct functions are declared under distinct keys, so a committed
      message's `name` identifies the function that wrote it. */
  lemma KeysDistinct(f: ChatFunction, g: ChatFunction)
    ensures f.Key() == g.Key() <==> f == g
  {
  }
}
