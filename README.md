# Chat session state of the grade-5 tutor chatbot, in Dafny

This project models the server-side chat logic of `lib/chat/actions.tsx`.
A chat session has a durable AI state `{ chatId, messages }`. One turn
(`submitUserMessage`) changes that state step by step:

- it appends the user's message;
- the `text` callback creates a streamable value on its first call, pushes
  each delta into it, and on `done` closes it and commits one `assistant`
  message;
- each of the four declared functions (`askQuestion`, `provideExplanation`,
  `startPracticeSession`, `recommendResources`) commits one `function` message
  whose `name` is its key and whose `content` is its raw argument.

When a chat is reloaded, `getUIStateFromAIState` projects the stored messages
into UI entries. It drops `system` messages, gives entry `i` the id
`chatId-i`, and picks a fragment by role and function name. When a user is
signed in, `unstable_onSetAIState` builds the chat record that gets saved.

Files and modules:

- `chat_state.dfy` (`ChatState`): messages, roles, the AI state, sessions,
  the four declared functions and the fragment datatype shared by the live
  turn and the reload.
- `decimal.dfy` (`Decimal`): the decimal text of an index in `${index}`,
  with a proof that it reads back.
- `projection.dfy` (`Projection`): `getUIStateFromAIState` and
  `unstable_onGetUIState`, as functions with lemmas.
- `chat_record.dfy` (`ChatRecord`): the record built by `unstable_onSetAIState`.
- `dispatch.dfy` (`Dispatch`): a class `Turn` whose fields are the mutable AI
  state and the `text` callback's closure variables. Its methods are the user
  commit, the `text` callback and the four `render` functions. `TextStream` is
  the streamable value as an object that the node refers to.
- `reload.dfy` (`Reload`): how live commits look after a reload. It states
  the places where the function declarations and the projector disagree,
  plus one client turn driven through the callbacks.

`JSON.parse` is a parameter `parse: string -> Option<J>`, where `None` means
it throws. Because `.map` builds every display eagerly, one throwing parse
makes the whole projection throw. The projection returns `Err(content)` for
the first such message. Fresh ids from `nanoid()`, the session from `auth()`
and the clock reading `new Date()` are parameters.

Stated facts about the code as written (in `Reload`):

- `askQuestion` is declared (lib/chat/actions.tsx:125) but the projector has
  no branch for it. Its message reloads as `null`, although its `render`
  returned a card.
- `exploreNewTopic` has a projector branch (lib/chat/actions.tsx:358) but no
  declared function carries that name.
- Every function stores its raw argument (e.g. lib/chat/actions.tsx:181). The
  projector passes it to `JSON.parse` (lib/chat/actions.tsx:348). So the
  reloaded card holds the parse of the string, not the string itself, and the
  reload throws whenever that parse throws.
- `provideExplanation` and `recommendResources` reload as the same card
  (`topic=`), and so do their live cards.

Further facts about the code that the model keeps:

- Every `system` message is dropped from the projection, not only a leading one.
- The assistant message holds the `content` argument of the text callback. It
  is not rebuilt from the deltas pushed into the stream, and the model keeps
  the two apart.
- The code has no error handling of its own. It throws in two places.
  Reading `messages[0].content` of an empty chat in `unstable_onSetAIState`
  raises a `TypeError`, kept as `ThrowsTypeError`. A failing `JSON.parse` in
  `getUIStateFromAIState` raises a `SyntaxError`, kept as `Err(content)`.

## Model

| member | source | states |
|---|---|---|
| `ChatState.KeysDistinct` | lib/chat/actions.tsx:124-260 | the four functions are declared under pairwise distinct keys, so a committed `name` identifies its function |
| `ChatState.FunctionMessage` | lib/chat/actions.tsx:143-148 | definition of the message each function commits (also 177-182, 211-216, 245-250): role `function`, the raw argument as content, and a `name` that is the key of exactly that function; `KeysDistinct` and the `Dispatch.Turn.Render*` rows state the rest |
| `Decimal.DecimalString` | lib/chat/actions.tsx:343 | the index text is non-empty, all digits, one digit exactly below ten, and has no leading zero |
| `Decimal.DecimalRoundTrip` | lib/chat/actions.tsx:343 | reading the index text back as a decimal number gives the index |
| `Decimal.DecimalInjective` | lib/chat/actions.tsx:343 | distinct indices have distinct texts |
| `Projection.EntryId` | lib/chat/actions.tsx:343 | definition of the id template: the id starts with `chatId-` and the rest is all digits; `EntryIdInjective` states that distinct indices give distinct ids |
| `Projection.EntryIdInjective` | lib/chat/actions.tsx:343 | within one chat, `${chatId}-${index}` ids are equal exactly when the indices are |
| `Projection.NonSystem` | lib/chat/actions.tsx:340-341 | the filter keeps exactly the messages whose role is not `system` and never grows the list |
| `Projection.NonSystemAppend` | lib/chat/actions.tsx:340-341 | the filter distributes over concatenation, so it keeps the original order |
| `Projection.Display` | lib/chat/actions.tsx:344-367 | definition of the nested conditional: the display fails exactly when a parsing name's content fails to parse; `DisplaySelection` states every branch in both directions |
| `Projection.DisplaySelection` | lib/chat/actions.tsx:344-367 | in both directions: `user` gives user text, roles other than `user`/`function` give bot text, the three parsing names give a card holding the parsed content whose property is `concept` exactly for `startPracticeSession` and `topic` exactly for `provideExplanation` and `recommendResources`, `exploreNewTopic` gives a bare card, any other function name gives `null`, and the display fails exactly when one of the parsing names' content fails to parse |
| `Projection.MapEntries` | lib/chat/actions.tsx:342-368 | a successful map yields one entry per message |
| `Projection.MapEntriesOk` | lib/chat/actions.tsx:342-368 | the map succeeds exactly when every message's display can be built |
| `Projection.MapEntriesAt` | lib/chat/actions.tsx:342-368 | on success entry i has id `chatId-(from+i)` and the display of message i |
| `Projection.MapEntriesFirstFailure` | lib/chat/actions.tsx:344-357 | on failure the reported content is that of the first message whose parse throws |
| `Projection.MapEntriesSnoc` | lib/chat/actions.tsx:342-368 | mapping one more message adds exactly its entry at the next index, or fails with its content |
| `Projection.GetUIStateFromAIState` | lib/chat/actions.tsx:339-369 | definition of the projection: on success one entry per non-system message, never more than the stored messages; `ProjectionShape`, `ProjectionFails`, `ProjectionIdsDistinct`, `ProjectionAppend` and `ProjectionAppendAfterFailure` state its properties |
| `Projection.ProjectionShape` | lib/chat/actions.tsx:339-369 | one entry per non-system message, in order, entry i with id `chatId-i` and the display of the i-th non-system message |
| `Projection.ProjectionFails` | lib/chat/actions.tsx:344-357 | the reload throws exactly when some stored function message under a parsing name has content that fails to parse, and it reports such a content |
| `Projection.ProjectionIdsDistinct` | lib/chat/actions.tsx:342-343 | entry ids within one projection are pairwise distinct |
| `Projection.ProjectionIgnoresSystem` | lib/chat/actions.tsx:340-341 | inserting a system message anywhere leaves the projection unchanged |
| `Projection.MapEntriesSnocAfterFailure` | lib/chat/actions.tsx:342-368 | once the map has failed, mapping one more message fails with the same content |
| `Projection.ProjectionAppendAfterFailure` | lib/chat/actions.tsx:339-369 | once a reload throws, appending any message leaves it throwing with the same content |
| `Projection.ProjectionAppend` | lib/chat/actions.tsx:339-369 | projecting after one more non-system message equals the earlier projection plus its entry at the next index (or throws with its content) |
| `Projection.OnGetUIState` | lib/chat/actions.tsx:294-309 | the projection is produced exactly when a user is signed in and a state exists, and is then the projection of that state |
| `ChatRecord.SubstringSwap` | lib/chat/actions.tsx:321 | `substring` takes its bounds in either order: swapping them gives the same string, the slice between the clamped bounds |
| `ChatRecord.TitlePrefix` | lib/chat/actions.tsx:321 | the title is a prefix of the first message of length min(100, its length), and the whole content when that is at most 100 characters |
| `ChatRecord.ChatPathInjective` | lib/chat/actions.tsx:320 | `/chat/<chatId>` gives back the chat id, so distinct chats get distinct paths |
| `ChatRecord.OnSetAIState` | lib/chat/actions.tsx:310-336 | without a signed-in user nothing is produced; with one and no messages the call throws; otherwise the record has the chat id, user id, clock reading, unchanged messages, path `/chat/<chatId>` and the at-most-100-character prefix of the first message as title |
| `Dispatch.TextStream.constructor` | lib/chat/actions.tsx:101 | a new stream holds no deltas and is open |
| `Dispatch.TextStream.Update` | lib/chat/actions.tsx:119 | pushing records the delta at the end and leaves the done flag alone |
| `Dispatch.TextStream.Done` | lib/chat/actions.tsx:106 | closing sets the done flag and keeps the pushed deltas |
| `Dispatch.Turn.constructor` | lib/chat/actions.tsx:54-69 | a turn starts from the current AI state with neither stream nor node |
| `Dispatch.Turn.SubmitUserMessage` | lib/chat/actions.tsx:56-66 | exactly one `user` message with the content, the given fresh id and no name is appended; chat id and earlier messages unchanged; nothing else in the turn changes |
| `Dispatch.Turn.OnText` | lib/chat/actions.tsx:99-123 | the stream is created only on the first call and every call returns the node showing it; without `done` only the delta is pushed and the state is untouched; with `done` the stream is closed and exactly one `assistant` message with the callback's content is appended |
| `Dispatch.Turn.CommitFunctionMessage` | lib/chat/actions.tsx:139-150 | `aiState.done` appends exactly one `function` message named by the function's key with the raw argument |
| `Dispatch.Turn.RenderAskQuestion` | lib/chat/actions.tsx:130-157 | appends exactly one message `{function, askQuestion, question}`, marks the state done and returns the card with `question=` |
| `Dispatch.Turn.RenderProvideExplanation` | lib/chat/actions.tsx:164-191 | appends exactly one message `{function, provideExplanation, topic}`, marks the state done and returns the card with `topic=` |
| `Dispatch.Turn.RenderStartPracticeSession` | lib/chat/actions.tsx:198-225 | appends exactly one message `{function, startPracticeSession, concept}`, marks the state done and returns the card with `concept=` |
| `Dispatch.Turn.RenderRecommendResources` | lib/chat/actions.tsx:232-259 | appends exactly one message `{function, recommendResources, topic}`, marks the state done and returns the card with `topic=` |
| `Reload.ExploreNewTopicNotDeclared` | lib/chat/actions.tsx:358-362 | no declared function has the key `exploreNewTopic`, yet the projector turns that name into a bare card |
| `Reload.ReloadedFunctionMessage` | lib/chat/actions.tsx:344-362 | a committed function message reloads as `null` exactly when it came from `askQuestion`; any other reloads as its live card holding the parse of the raw argument, or throws |
| `Reload.ReloadAfterFunctionCommit` | lib/chat/actions.tsx:139-252 | after a function's commit the reload is the earlier entries plus `null` (askQuestion) or the card around the parsed argument, or it throws with the raw argument |
| `Reload.ReloadAfterTextCommit` | lib/chat/actions.tsx:56-117 | after a user or assistant commit the reload is the earlier entries plus user text or bot text with the same content at the next index |
| `Reload.ExplainPhotosynthesis` | lib/chat/actions.tsx:51-268 | a turn of user message, two deltas, final text and one `provideExplanation` call commits exactly those three messages in order, returns one node throughout, the stream holds the two deltas, and the live card holds the raw topic |

## Left out

- The `render` call to the model (lib/chat/actions.tsx:71-98) is left out. This covers the model name, the provider, the system prompt and the message list sent to the model, because it is a network client in a foreign library. The callbacks are methods, and the caller supplies their order and their arguments.
- The library behind `createStreamableValue`, `createAI`, `getMutableAIState` and `getAIState` is not part of this model. What `update` and `done` do to a value that is already closed is not modelled, and neither is a second `aiState.done`. The model only records what the callback does. So a second `done` call of the text callback would commit a second assistant message in the model too.
- `Dispatch.TextStream`: the buffer records the deltas in the order they were pushed. It does not record the concatenated text a reader may build from them, because that happens in client code outside this file.
- The `yield` of skeleton placeholders and `await sleep(1000)` in each `render` (e.g. lib/chat/actions.tsx:131-137) are left out. They are timing and suspension only, with no effect on state.
- The value `submitUserMessage` returns (`{ id: nanoid(), display: ui }`, lib/chat/actions.tsx:264-267) is left out, because `ui` is the library's render result.
- `auth()` and `saveChat` are I/O. The session is a parameter, and saving is left out. `createdAt` is a clock reading passed in as an integer.
- `nanoid()` is left out. Ids are parameters, and their uniqueness is an assumption about the generator that nothing here proves.
- `JSON.parse` is a parameter and is not interpreted. The model does not decide which strings it accepts.
- `ChatRecord.Substring`: counts characters, where JavaScript counts UTF-16 code units. It also takes integer bounds only, with no `NaN` or `undefined` bounds.
- The determinism of the projection needs no lemma: Dafny functions are deterministic by construction.
- Argument validation by the schemas in the function declarations is left out. It happens inside the library, and the handlers receive strings.
- `confirmSession` (lib/chat/actions.tsx:43-49) has an empty body, so it has no behaviour to model.
- `components/empty-screen.tsx` is static markup and is not part of this model.
- The JSX contents of the cards are presentation. They are fragment constructors here.
