/** `getUIStateFromAIState` (lib/chat/actions.tsx:339-369): the pure projection
    of a stored chat into UI entries, used when a session is reloaded, and the
    `unstable_onGetUIState` hook that calls it.

    `JSON.parse` is not interpreted: it is the parameter `parse`, whose `None`
    stands for a thrown `SyntaxError`. Because `.map` builds every display
    eagerly, one throwing parse aborts the whole projection. */
module Projection {
  import opened ChatState
  import Decimal

  /** One UI state entry: an id and what is displayed. */
  datatype UIEntry<+J> = UIEntry(id: string, display: Fragment<J>)

  /** The id `${chatId}-${index}`. */
  function EntryId(chatId: string, index: nat): (r: string)
    ensures |r| > |chatId| + 1 && r[..|chatId| + 1] == chatId + "-"
    ensures forall k :: |chatId| + 1 <= k < |r| ==> Decimal.IsDigit(r[k])
  {
    chatId + "-" + Decimal.DecimalString(index)
  }

  /** Within one chat, entry ids are distinct exactly when their indices are. */
  lemma EntryIdInjective(chatId: string, i: nat, j: nat)
    ensures EntryId(chatId, i) == EntryId(chatId, j) <==> i == j
  {
    var p := chatId + "-";
    if EntryId(chatId, i) == EntryId(chatId, j) {
      assert Decimal.DecimalString(i) == EntryId(chatId, i)[|p|..];
      assert Decimal.DecimalString(j) == EntryId(chatId, j)[|p|..];
      Decimal.DecimalInjective(i, j);
    }
  }

  /** `messages.filter(message => message.role !== 'system')`. */
  function NonSystem(ms: seq<Message>): (r: seq<Message>)
    ensures |r| <= |ms|
    ensures forall m :: m in r <==> m in ms && m.role != System
  {
    if ms == [] then []
    else if ms[0].role == System then NonSystem(ms[1..])
    else [ms[0]] + NonSystem(ms[1..])
  }

  /** The filter distributes over concatenation, so it keeps the original order. */
  lemma {:induction false} NonSystemAppend(a: seq<Message>, b: seq<Message>)
    ensures NonSystem(a + b) == NonSystem(a) + NonSystem(b)
  {
    if a == [] {
      assert a + b == b;
    } else {
      assert (a + b)[0] == a[0];
      assert (a + b)[1..] == a[1..] + b;
      NonSystemAppend(a[1..], b);
    }
  }

  /** A card with property `key` holding the parsed content; `None` when the parse throws. */
  function ParsedCard<J>(parsed: Option<J>, key: PropKey): Option<Fragment<J>>
  {
    match parsed
    case None => None
    case Some(v) => Some(SkeletonCard(Prop(key, v)))
  }

  /** The `display` of one message, selected by role and, for `function`
      messages, by name; `None` when `JSON.parse` throws on its content. */
  function Display<J>(m: Message, parse: string -> Option<J>): (r: Option<Fragment<J>>)
    ensures r.None? <==> m.role == Function && ParsesContent(m.name) && parse(m.content).None?
  {
    if m.role == Function then
      if m.name == Some("provideExplanation") then ParsedCard(parse(m.content), TopicProp)
      else if m.name == Some("startPracticeSession") then ParsedCard(parse(m.content), ConceptProp)
      else if m.name == Some("recommendResources") then ParsedCard(parse(m.content), TopicProp)
      else if m.name == Some("exploreNewTopic") then Some(SkeletonCard(NoAttr))
      else Some(Null)
    else if m.role == User then Some(UserText(m.content))
    else Some(BotText(m.content))
  }

  /** The names the projector gives a card built from parsed content. */
  predicate ParsesContent(name: Option<string>)
  {
    name == Some("provideExplanation") || name == Some("startPracticeSession") || name == Some("recommendResources")
  }

  /** Fragment selection, read from the result: which kind of fragment a
      message yields and what it holds. */
  lemma DisplaySelection<J>(m: Message, parse: string -> Option<J>)
    requires m.role != System
    ensures Display(m, parse).None? <==> m.role == Function && ParsesContent(m.name) && parse(m.content).None?
    ensures Display(m, parse) == Some(UserText(m.content)) <==> m.role == User
    ensures Display(m, parse) == Some(BotText(m.content)) <==> m.role !in {User, Function}
    ensures Display(m, parse) == Some(Null) <==> m.role == Function && !ParsesContent(m.name) && m.name != Some("exploreNewTopic")
    ensures Display(m, parse) == Some(SkeletonCard(NoAttr)) <==> m.role == Function && m.name == Some("exploreNewTopic")
    ensures (Display(m, parse).Some? && Display(m, parse).value.SkeletonCard? && Display(m, parse).value.attr.Prop?)
            <==> m.role == Function && ParsesContent(m.name) && parse(m.content).Some?
    ensures m.role == Function && ParsesContent(m.name) && parse(m.content).Some? ==>
              Display(m, parse).value.attr.value == parse(m.content).value &&
              (Display(m, parse).value.attr.key == ConceptProp <==> m.name == Some("startPracticeSession")) &&
              (Display(m, parse).value.attr.key == TopicProp <==>
                 m.name == Some("provideExplanation") || m.name == Some("recommendResources"))
  {
  }

  /** `.map((message, index) => ({ id, display }))` over the filtered messages,
      whose first element has index `from`. */
  function MapEntries<J>(chatId: string, ms: seq<Message>, from: nat, parse: string -> Option<J>)
    : (r: Result<seq<UIEntry<J>>, string>)
    ensures r.Ok? ==> |r.value| == |ms|
    decreases |ms|
  {
    if ms == [] then Ok([])
    else match Display(ms[0], parse)
      case None => Err(ms[0].content)
      case Some(d) =>
        match MapEntries(chatId, ms[1..], from + 1, parse)
        case Err(e) => Err(e)
        case Ok(rest) => Ok([UIEntry(EntryId(chatId, from), d)] + rest)
  }

  /** The mapping succeeds exactly when every display can be built. */
  lemma {:induction false} MapEntriesOk<J>(chatId: string, ms: seq<Message>, from: nat, parse: string -> Option<J>)
    ensures MapEntries(chatId, ms, from, parse).Ok? <==> forall i :: 0 <= i < |ms| ==> Display(ms[i], parse).Some?
    decreases |ms|
  {
    if ms != [] {
      MapEntriesOk(chatId, ms[1..], from + 1, parse);
      assert forall i :: 0 < i < |ms| ==> ms[i] == ms[1..][i - 1];
    }
  }

  /** On success, entry i carries index `from + i` and the display of message i. */
  lemma {:induction false} MapEntriesAt<J>(chatId: string, ms: seq<Message>, from: nat, parse: string -> Option<J>, i: nat)
    requires MapEntries(chatId, ms, from, parse).Ok?
    requires i < |ms|
    ensures Display(ms[i], parse).Some?
    ensures MapEntries(chatId, ms, from, parse).value[i] == UIEntry(EntryId(chatId, from + i), Display(ms[i], parse).value)
    decreases |ms|
  {
    if i > 0 {
      MapEntriesAt(chatId, ms[1..], from + 1, parse, i - 1);
      assert ms[i] == ms[1..][i - 1];
    }
  }

  /** On failure, the reported content is that of the first message whose display cannot be built. */
  lemma {:induction false} MapEntriesFirstFailure<J>(chatId: string, ms: seq<Message>, from: nat, parse: string -> Option<J>)
    returns (i: nat)
    requires MapEntries(chatId, ms, from, parse).Err?
    ensures i < |ms| && Display(ms[i], parse).None? && MapEntries(chatId, ms, from, parse).error == ms[i].content
    ensures forall k :: 0 <= k < i ==> Display(ms[k], parse).Some?
    decreases |ms|
  {
    if Display(ms[0], parse).None? {
      i := 0;
    } else {
      var j := MapEntriesFirstFailure(chatId, ms[1..], from + 1, parse);
      i := j + 1;
      assert forall k :: 0 < k < |ms| ==> ms[k] == ms[1..][k - 1];
    }
  }

  /** `getUIStateFromAIState`: the UI entries of a stored chat, or the content
      of the first message whose `JSON.parse` throws. */
  function GetUIStateFromAIState<J>(s: AIState, parse: string -> Option<J>): (r: Result<seq<UIEntry<J>>, string>)
    ensures r.Ok? ==> |r.value| == |NonSystem(s.messages)| <= |s.messages|
  {
    MapEntries(s.chatId, NonSystem(s.messages), 0, parse)
  }

  /** One entry per non-system message, in order; entry i has id `chatId-i`
      and the display of the i-th non-system message. */
  lemma ProjectionShape<J>(s: AIState, parse: string -> Option<J>)
    ensures var r := GetUIStateFromAIState(s, parse);
      r.Ok? ==>
        |r.value| == |NonSystem(s.messages)| &&
        forall i :: 0 <= i < |r.value| ==>
          r.value[i].id == EntryId(s.chatId, i) &&
          Some(r.value[i].display) == Display(NonSystem(s.messages)[i], parse)
  {
    var ns := NonSystem(s.messages);
    if GetUIStateFromAIState(s, parse).Ok? {
      forall i | 0 <= i < |ns|
        ensures Display(ns[i], parse).Some?
        ensures MapEntries(s.chatId, ns, 0, parse).value[i] == UIEntry(EntryId(s.chatId, i), Display(ns[i], parse).value)
      {
        MapEntriesAt(s.chatId, ns, 0, parse, i);
      }
    }
  }

  /** The projection fails exactly when some non-system message's content
      fails to parse under a name the projector parses, and then it reports
      that content. */
  lemma ProjectionFails<J>(s: AIState, parse: string -> Option<J>)
    ensures GetUIStateFromAIState(s, parse).Err? <==>
      exists m :: m in s.messages && m.role == Function && ParsesContent(m.name) && parse(m.content).None?
    ensures GetUIStateFromAIState(s, parse).Err? ==>
      exists m :: m in s.messages && m.role == Function && ParsesContent(m.name) && parse(m.content).None? &&
        GetUIStateFromAIState(s, parse).error == m.content
  {
    var ns := NonSystem(s.messages);
    forall i | 0 <= i < |ns|
      ensures Display(ns[i], parse).None? <==> ns[i].role == Function && ParsesContent(ns[i].name) && parse(ns[i].content).None?
    {
      assert ns[i] in ns;
      DisplaySelection(ns[i], parse);
    }
    MapEntriesOk(s.chatId, ns, 0, parse);
    if exists m :: m in s.messages && m.role == Function && ParsesContent(m.name) && parse(m.content).None? {
      var m :| m in s.messages && m.role == Function && ParsesContent(m.name) && parse(m.content).None?;
      assert m in ns;
      var i :| 0 <= i < |ns| && ns[i] == m;
      assert Display(ns[i], parse).None?;
    }
    if GetUIStateFromAIState(s, parse).Err? {
      var i := MapEntriesFirstFailure(s.chatId, ns, 0, parse);
      assert ns[i] in ns;
    }
  }

  /** Entry ids within one projection are pairwise distinct. */
  lemma ProjectionIdsDistinct<J>(s: AIState, parse: string -> Option<J>)
    ensures var r := GetUIStateFromAIState(s, parse);
      r.Ok? ==> forall i, j :: 0 <= i < j < |r.value| ==> r.value[i].id != r.value[j].id
  {
    var r := GetUIStateFromAIState(s, parse);
    if r.Ok? {
      forall i, j | 0 <= i < j < |r.value| ensures r.value[i].id != r.value[j].id {
        MapEntriesAt(s.chatId, NonSystem(s.messages), 0, parse, i);
        MapEntriesAt(s.chatId, NonSystem(s.messages), 0, parse, j);
        EntryIdInjective(s.chatId, i, j);
      }
    }
  }

  /** System messages, wherever they stand, leave the projection unchanged. */
  lemma ProjectionIgnoresSystem<J>(s: AIState, a: seq<Message>, m: Message, b: seq<Message>, parse: string -> Option<J>)
    requires m.role == System
    ensures GetUIStateFromAIState(s.(messages := a + [m] + b), parse) == GetUIStateFromAIState(s.(messages := a + b), parse)
  {
    assert NonSystem([m]) == NonSystem([m][1..]) == [];
    NonSystemAppend(a + [m], b);
    NonSystemAppend(a, [m]);
    assert NonSystem(a + [m]) == NonSystem(a);
    assert NonSystem(a + [m] + b) == NonSystem(a) + NonSystem(b);
    NonSystemAppend(a, b);
  }

  /** Mapping one more message extends the entries by its own, or fails with its content. */
  lemma {:induction false} MapEntriesSnoc<J>(chatId: string, ms: seq<Message>, m: Message, from: nat, parse: string -> Option<J>)
    requires MapEntries(chatId, ms, from, parse).Ok?
    ensures var before := MapEntries(chatId, ms, from, parse).value;
      MapEntries(chatId, ms + [m], from, parse) ==
        match Display(m, parse)
        case None => Err(m.content)
        case Some(d) => Ok(before + [UIEntry(EntryId(chatId, from + |ms|), d)])
    decreases |ms|
  {
    if ms == [] {
      assert ms + [m] == [m] && [m][0] == m;
      assert MapEntries(chatId, [m][1..], from + 1, parse) == Ok([]);
      assert MapEntries(chatId, ms, from, parse).value == [];
      match Display(m, parse)
      case None =>
      case Some(d) =>
        var e := UIEntry(EntryId(chatId, from), d);
        assert [e] + [] == [e];
        assert MapEntries(chatId, [m], from, parse) == Ok([e]);
        assert [] + [UIEntry(EntryId(chatId, from + |ms|), d)] == [UIEntry(EntryId(chatId, from), d)];
    } else {
      assert (ms + [m])[0] == ms[0];
      assert (ms + [m])[1..] == ms[1..] + [m];
      var d0 := Display(ms[0], parse).value;
      var rest := MapEntries(chatId, ms[1..], from + 1, parse);
      assert rest.Ok? && MapEntries(chatId, ms, from, parse).value == [UIEntry(EntryId(chatId, from), d0)] + rest.value;
      MapEntriesSnoc(chatId, ms[1..], m, from + 1, parse);
      match Display(m, parse)
      case None =>
      case Some(d) =>
        var e := UIEntry(EntryId(chatId, from + |ms|), d);
        assert [UIEntry(EntryId(chatId, from), d0)] + (rest.value + [e]) == ([UIEntry(EntryId(chatId, from), d0)] + rest.value) + [e];
    }
  }

  /** Once the mapping has failed, mapping one more message fails with the same content. */
  lemma {:induction false} MapEntriesSnocAfterFailure<J>(chatId: string, ms: seq<Message>, m: Message, from: nat, parse: string -> Option<J>)
    requires MapEntries(chatId, ms, from, parse).Err?
    ensures MapEntries(chatId, ms + [m], from, parse) == MapEntries(chatId, ms, from, parse)
    decreases |ms|
  {
    assert (ms + [m])[0] == ms[0];
    assert (ms + [m])[1..] == ms[1..] + [m];
    if Display(ms[0], parse).Some? {
      MapEntriesSnocAfterFailure(chatId, ms[1..], m, from + 1, parse);
    }
  }

  /** Once a reload throws, it keeps throwing with the same content whatever
      message is appended. */
  lemma ProjectionAppendAfterFailure<J>(s: AIState, m: Message, parse: string -> Option<J>)
    requires GetUIStateFromAIState(s, parse).Err?
    ensures GetUIStateFromAIState(s.(messages := s.messages + [m]), parse) == GetUIStateFromAIState(s, parse)
  {
    NonSystemAppend(s.messages, [m]);
    assert NonSystem([m]) == (if m.role == System then [] else [m]) + NonSystem([m][1..]);
    if m.role == System {
      assert NonSystem(s.messages + [m]) == NonSystem(s.messages) + [];
      assert NonSystem(s.messages) + [] == NonSystem(s.messages);
    } else {
      assert NonSystem([m]) == [m] + NonSystem([]) == [m];
      assert NonSystem(s.messages + [m]) == NonSystem(s.messages) + [m];
      MapEntriesSnocAfterFailure(s.chatId, NonSystem(s.messages), m, 0, parse);
    }
  }

  /** Projecting after one more non-system message equals the earlier
      projection plus one entry for it, with the next index; if its parse
      throws, the whole projection reports its content. */
  lemma ProjectionAppend<J>(s: AIState, m: Message, parse: string -> Option<J>)
    requires m.role != System
    requires GetUIStateFromAIState(s, parse).Ok?
    ensures var before := GetUIStateFromAIState(s, parse).value;
      GetUIStateFromAIState(s.(messages := s.messages + [m]), parse) ==
        match Display(m, parse)
        case None => Err(m.content)
        case Some(d) => Ok(before + [UIEntry(EntryId(s.chatId, |before|), d)])
  {
    assert NonSystem([m]) == [m] + NonSystem([m][1..]) == [m];
    NonSystemAppend(s.messages, [m]);
    MapEntriesSnoc(s.chatId, NonSystem(s.messages), m, 0, parse);
  }

  /** `unstable_onGetUIState`: the projection when a user is signed in and a
      state exists; nothing (`undefined`) otherwise. */
  function OnGetUIState<J>(session: Option<Session>, aiState: Option<AIState>, parse: string -> Option<J>)
    : (r: Option<Result<seq<UIEntry<J>>, string>>)
    ensures r.Some? <==> SignedIn(session) && aiState.Some?
    ensures r.Some? ==> r.value == GetUIStateFromAIState(aiState.value, parse)
  {
    if SignedIn(session) then
      match aiState
      case Some(s) => Some(GetUIStateFromAIState(s, parse))
      case None => None
    else None
  }
}
