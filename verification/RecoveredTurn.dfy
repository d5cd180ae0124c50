/** A turn produced by a recovered request can be repaired in the next request. */
module RecoveredTurn {
  import opened Messages
  import opened Keys
  import opened ReasoningStore
  import opened Normalize
  import opened Recovery
  import opened Prepare
  import opened Recording
  import opened ReplayContract
  import KeyStability
  import OneShot
  import Session
  import StreamRecording
  import Thinking

  // ----- The user message survives -----

  /** The canonical form of the last user message. */
  function Question(messages: seq<Message>): Option<Message> {
    var i := LastUser(messages);
    if i == -1 then None else Some(CanonicalScopeMessage(messages[i]))
  }

  lemma QuestionConcat(a: seq<Message>, b: seq<Message>)
    ensures Question(a + b) == if Question(b).Some? then Question(b) else Question(a)
  {
    if LastUser(b) >= 0 {
      LastUserConcat(a, b);
    } else {
      LastUserUnique(a + b, LastUser(a));
    }
  }

  lemma {:induction false} NoQuestion(messages: seq<Message>)
    requires forall i | 0 <= i < |messages| :: messages[i].role == System
    ensures Question(messages) == None
  {
    LastUserUnique(messages, -1);
  }

  lemma ContextQuestion(messages: seq<Message>, i: nat)
    requires i <= |messages|
    ensures Question(ContextUser(messages, i)) == Question(messages[..i])
  {
    var user := LastUser(messages[..i]);
    if user >= 0 {
      LastUserUnique([messages[user]], 0);
    }
  }

  /** Cutting keeps the last user message: in the tail, or as the context user. */
  lemma CutKeepsQuestion(messages: seq<Message>, i: nat)
    requires i <= |messages|
    ensures Question(CutAt(messages, i)) == Question(messages)
  {
    RecoverySystemRole();
    hide RecoverySystem, NoticeText, Question, ContextUser;
    var head := Leading(messages) + [RecoverySystem()];
    NoQuestion(head);
    ContextQuestion(messages, i);
    QuestionConcat(head, ContextUser(messages, i));
    QuestionConcat(head + ContextUser(messages, i), messages[i..]);
    QuestionConcat(messages[..i], messages[i..]);
    assert messages == messages[..i] + messages[i..];
  }

  /** Messages in normal form: normalising them again changes nothing but assistant content. */
  ghost predicate Settled(messages: seq<Message>) {
    forall i | 0 <= i < |messages| ::
      && messages[i].role == NormalRole(messages[i].role)
      && (messages[i].role != Assistant ==> Plain(messages[i]) == CanonicalScopeMessage(messages[i]))
  }

  lemma PlainIsSettled(message: Message)
    requires NormalRole(message.role) != Assistant
    ensures Plain(Plain(message)) == Plain(message)
  {
    NormalizeToolCallsIdempotent(message.toolCalls);
  }

  lemma PlainIgnoresReasoning(a: Message, b: Message)
    requires a.role != Assistant && CanonicalScopeMessage(a) == CanonicalScopeMessage(b)
    ensures Plain(a) == Plain(b)
  {
  }

  lemma NormalizedIsSettled(backend: Backend, raw: seq<Message>, namespace: Option<Namespace>, policy: Policy)
    ensures Settled(NormalizeAll(backend, raw, namespace, policy).messages)
  {
    var messages := NormalizeAll(backend, raw, namespace, policy).messages;
    forall i: nat | i < |messages|
      ensures messages[i].role == NormalRole(messages[i].role)
      ensures messages[i].role != Assistant ==> Plain(messages[i]) == CanonicalScopeMessage(messages[i])
    {
      KeyStability.PlainAt(backend, raw, namespace, policy, i);
      if messages[i].role != Assistant {
        PlainIsSettled(raw[i]);
        PlainIsCanonical(raw[i]);
        PlainIgnoresReasoning(messages[i], Plain(raw[i]));
      }
    }
  }

  /** Normalising a settled history again keeps its last user message. */
  lemma NormalizedKeepsQuestion(backend: Backend, raw: seq<Message>, namespace: Option<Namespace>, policy: Policy)
    requires Settled(raw)
    ensures Question(NormalizeAll(backend, raw, namespace, policy).messages) == Question(raw)
  {
    var messages := NormalizeAll(backend, raw, namespace, policy).messages;
    forall j: nat | j < |raw|
      ensures messages[j].role == raw[j].role
      ensures CanonicalScopeMessage(messages[j]) == Plain(raw[j])
    {
      KeyStability.PlainAt(backend, raw, namespace, policy, j);
    }
    LastUserUnique(messages, LastUser(raw));
  }

  lemma RecoverySystemIsSettled()
    ensures Settled([RecoverySystem()])
  {
  }

  lemma SettledConcat(a: seq<Message>, b: seq<Message>)
    requires Settled(a) && Settled(b)
    ensures Settled(a + b)
  {
  }

  lemma CutIsSettled(messages: seq<Message>, i: nat)
    requires i <= |messages| && Settled(messages)
    ensures Settled(CutAt(messages, i))
  {
    RecoverySystemIsSettled();
    hide RecoverySystem, NoticeText, Plain;
    SettledConcat(Leading(messages), [RecoverySystem()]);
    SettledConcat(Leading(messages) + [RecoverySystem()], ContextUser(messages, i));
    SettledConcat(Leading(messages) + [RecoverySystem()] + ContextUser(messages, i), messages[i..]);
  }

  // ----- Request k: recovery at the last user -----

  /** System messages followed by the question: what recovery at the last user leaves. */
  ghost predicate OnlyQuestion(messages: seq<Message>, question: Option<Message>) {
    var n := |messages| - 1;
    && n >= 0
    && (forall j | 0 <= j < n :: messages[j].role == System)
    && messages[n].role == User
    && question == Some(CanonicalScopeMessage(messages[n]))
  }

  /** The turn of such a history is the question alone, however many instructions stand before it. */
  lemma TurnOfQuestion(messages: seq<Message>, question: Option<Message>)
    requires OnlyQuestion(messages, question)
    ensures TurnContext(messages) == [question.value]
  {
    hide LastUser, RunStart, WithoutSystem, CanonicalScopeMessage;
    var n := |messages| - 1;
    LastUserUnique(messages, n);
    RunStartUnique(messages, n, n);
    assert messages[n..] == [messages[n]];
    TurnOfOne(messages[n]);
  }

  lemma TurnOfOne(message: Message)
    requires message.role != System
    ensures WithoutSystem([message]) == [CanonicalScopeMessage(message)]
  {
    hide CanonicalScopeMessage;
    assert [message][1..] == [];
    assert WithoutSystem([message]) == [CanonicalScopeMessage(message)] + WithoutSystem([]);
  }

  /** Loop invariant: the question is never lost. */
  lemma {:induction false} LoopKeepsQuestion(state: LoopState, namespace: Namespace, settings: Settings,
                                             question: Option<Message>)
    requires MissingAreAssistants(state.history) && Settled(state.history.messages)
    requires Question(state.history.messages) == question
    requires state.notice == ""
    ensures var end := RepairLoop(state, namespace, settings);
      end.notice != "" ==> OnlyQuestion(end.history.messages, question)
    decreases AssistantCount(state.history.messages)
  {
    hide NoticeText, RecoverySystem, Settled;
    if state.history.missing != [] && settings.strategy == Recover {
      LoopProgress(state, namespace, settings);
      RecoveryProgress(state.history.messages, state.history.missing);
      var step := LoopStep(state, namespace, settings);
      if !step.done {
        StepKeepsQuestion(state, namespace, settings, question);
        if step.state.notice == "" {
          LoopKeepsQuestion(step.state, namespace, settings, question);
        }
      }
    }
  }

  lemma StepKeepsQuestion(state: LoopState, namespace: Namespace, settings: Settings, question: Option<Message>)
    requires MissingAreAssistants(state.history) && Settled(state.history.messages)
    requires Question(state.history.messages) == question && state.notice == ""
    requires state.history.missing != [] && !LoopStep(state, namespace, settings).done
    ensures var next := LoopStep(state, namespace, settings).state;
      && Settled(next.history.messages)
      && Question(next.history.messages) == question
      && (next.notice != "" ==> OnlyQuestion(next.history.messages, question) && next.history.missing == [])
  {
    hide NoticeText, RecoverySystem, Settled, Question, OnlyQuestion;
    var messages, missing := state.history.messages, state.history.missing;
    var r := RecoverFromMissing(messages, missing);
    var i := NoticeAfterMissing(messages, missing, |messages|);
    NormalizedIsSettled(state.history.backend, r.messages, Some(namespace), RepairPolicy(settings));
    if i >= 0 {
      CutIsSettled(messages, i);
      CutKeepsQuestion(messages, i);
      NormalizedKeepsQuestion(state.history.backend, r.messages, Some(namespace), RepairPolicy(settings));
    } else {
      LastUserStep(state.history.backend, messages, question, r.messages, Some(namespace), RepairPolicy(settings));
    }
  }

  lemma LastUserStep(backend: Backend, messages: seq<Message>, question: Option<Message>, kept: seq<Message>,
                     namespace: Option<Namespace>, policy: Policy)
    requires Settled(messages) && Question(messages) == question && LastUser(messages) >= 0
    requires kept == Leading(messages) + [RecoverySystem()] + [messages[LastUser(messages)]]
    ensures var next := NormalizeAll(backend, kept, namespace, policy);
      Question(next.messages) == question && OnlyQuestion(next.messages, question) && next.missing == []
  {
    hide NoticeText, RecoverySystem, Plain, Settled, Question, OnlyQuestion, NormalizeAll, Leading;
    KeptShape(messages, kept);
    NormalizedKeepsQuestion(backend, kept, namespace, policy);
    KeptIsOnlyQuestion(backend, kept, namespace, policy);
  }

  lemma KeptShape(messages: seq<Message>, kept: seq<Message>)
    requires Settled(messages) && LastUser(messages) >= 0
    requires kept == Leading(messages) + [RecoverySystem()] + [messages[LastUser(messages)]]
    ensures kept != [] && kept[|kept| - 1].role == User
    ensures forall j | 0 <= j < |kept| - 1 :: kept[j].role == System
    ensures Settled(kept) && Question(kept) == Question(messages)
  {
    hide NoticeText, RecoverySystem, Settled, CanonicalScopeMessage;
    RecoverySystemRole();
    KeptIsSettled(messages);
    LastUserUnique(kept, |kept| - 1);
  }

  lemma KeptIsSettled(messages: seq<Message>)
    requires Settled(messages) && LastUser(messages) >= 0
    ensures Settled(Leading(messages) + [RecoverySystem()] + [messages[LastUser(messages)]])
  {
    RecoverySystemIsSettled();
    hide NoticeText, RecoverySystem, Plain;
    assert Settled(Leading(messages)) && Settled([messages[LastUser(messages)]]);
    hide Settled, Leading;
    SettledConcat(Leading(messages), [RecoverySystem()]);
    SettledConcat(Leading(messages) + [RecoverySystem()], [messages[LastUser(messages)]]);
  }

  lemma KeptIsOnlyQuestion(backend: Backend, kept: seq<Message>, namespace: Option<Namespace>, policy: Policy)
    requires kept != [] && kept[|kept| - 1].role == User
    requires forall j | 0 <= j < |kept| - 1 :: kept[j].role == System
    ensures var next := NormalizeAll(backend, kept, namespace, policy);
      OnlyQuestion(next.messages, Question(next.messages)) && next.missing == []
  {
    var next := NormalizeAll(backend, kept, namespace, policy);
    forall j: nat | j < |kept|
      ensures next.messages[j].role == kept[j].role
    {
      KeyStability.PlainAt(backend, kept, namespace, policy, j);
    }
    LastUserUnique(next.messages, |kept| - 1);
    NormalizedIsSound(backend, kept, namespace, policy);
    NoAssistantCount(kept);
    NothingMissing(next);
  }

  /** The history that is sent upstream is one of the recording contexts, up to canonical form. */
  lemma ActiveContext(backend: Backend, settings: Settings, raw: seq<Message>) returns (context: RecordingContext)
    ensures context in PrepareRequest(backend, settings, raw).contexts
    ensures var messages := Repaired(backend, settings, raw).history.messages;
      && context.scope == ConversationScope(messages, Some(SessionNamespace(settings, raw)))
      && Canonical(context.messages) == Canonical(messages)
  {
    hide NoticeText, RecoverySystem, Canonical, PreRepair, Repaired, DistinctContexts;
    var prepared, messages := PrepareRequest(backend, settings, raw), Repaired(backend, settings, raw).history.messages;
    var pre := PreRepair(settings, raw);
    var items := [RecordingContext(ConversationScope(pre, Some(prepared.namespace)), pre),
                  RecordingContext(ConversationScope(messages, Some(prepared.namespace)), messages)];
    EveryScopeIsKept(items, 1);
    var k :| 0 <= k < |prepared.contexts| && prepared.contexts[k].scope == items[1].scope;
    context := prepared.contexts[k];
    assert context in items;
  }

  /** A request recovered at its last user is answered under a context whose turn is its question. */
  lemma RecoveredContext(backend: Backend, settings: Settings, raw: seq<Message>) returns (context: RecordingContext)
    requires settings.thinking && settings.strategy == Recover
    requires PrepareRequest(backend, settings, raw).notice != ""
    ensures context in PrepareRequest(backend, settings, raw).contexts
    ensures context.messages != []
    ensures Question(PreRepair(settings, raw)).Some?
    ensures TurnContext(context.messages) == [Question(PreRepair(settings, raw)).value]
  {
    hide NoticeText, RecoverySystem, OnlyQuestion, Question, PrepareRequest, Repaired, PreRepair, TurnContext;
    RecoveredEnd(backend, settings, raw);
    var messages := Repaired(backend, settings, raw).history.messages;
    context := ActiveContext(backend, settings, raw);
    KeyStability.TurnOfCanonical(context.messages);
    KeyStability.TurnOfCanonical(messages);
    OnlyQuestionFacts(messages, Question(PreRepair(settings, raw)));
    assert |Canonical(context.messages)| == |Canonical(messages)| == |messages|;
  }

  lemma OnlyQuestionFacts(messages: seq<Message>, question: Option<Message>)
    requires OnlyQuestion(messages, question)
    ensures messages != [] && question.Some? && TurnContext(messages) == [question.value]
  {
    TurnOfQuestion(messages, question);
  }

  lemma RecoveredEnd(backend: Backend, settings: Settings, raw: seq<Message>)
    requires settings.thinking && settings.strategy == Recover
    requires PrepareRequest(backend, settings, raw).notice != ""
    ensures OnlyQuestion(Repaired(backend, settings, raw).history.messages, Question(PreRepair(settings, raw)))
  {
    hide NoticeText, RecoverySystem, Settled, OnlyQuestion, Question;
    var pre := PreRepair(settings, raw);
    var namespace, start := CacheNamespace(settings, pre), MessagesForRepair(settings, pre);
    NormalizedIsSettled(NoStore, raw, None, Policy(false, settings.thinking));
    if RecoveryBoundary(pre).Active? {
      CutIsSettled(pre, LastNotice(pre));
      CutKeepsQuestion(pre, LastNotice(pre));
    }
    NormalizedIsSettled(backend, start, Some(namespace), RepairPolicy(settings));
    NormalizedKeepsQuestion(backend, start, Some(namespace), RepairPolicy(settings));
    LoopKeepsQuestion(FirstPass(backend, settings, raw), namespace, settings, Question(pre));
  }

  // ----- Request k + 1 -----

  /** Exactly when the tail of the conversation is cut to the question: for a request with a user message that
      is cut at no notice, the whole start is kept when the first pass finds everything, and otherwise only
      system messages and the question are left. */
  lemma TailIsCutIff(backend: Backend, settings: Settings, raw: seq<Message>)
    requires settings.thinking && settings.strategy == Recover && HasUser(raw)
    requires OneShot.FoundBeforeNotices(backend, StartOf(settings, raw), Some(SessionNamespace(settings, raw)))
    ensures var first, end := FirstPass(backend, settings, raw), Repaired(backend, settings, raw);
      if first.history.missing == []
      then end == first && Canonical(end.history.messages) == PlainAll(StartOf(settings, raw))
      else OnlyQuestion(end.history.messages, Question(PreRepair(settings, raw)))
  {
    hide NoticeText, RecoverySystem, OnlyQuestion, Question, HasUser, OneShot.FoundBeforeNotices, NoticeAfterMissing,
      NormalizeAll, MessagesForRepair;
    OneShot.LoopRunsAtMostOnce(backend, settings, raw);
    OneShot.NoticeIff(backend, settings, raw);
    if FirstPass(backend, settings, raw).history.missing == [] {
      KeyStability.CanonicalOfNormalized(backend, StartOf(settings, raw), Some(SessionNamespace(settings, raw)),
                                         RepairPolicy(settings));
    } else {
      RecoveredEnd(backend, settings, raw);
    }
  }

  /** The next request: the notice-prefixed echo, then messages without another notice and without
      new system messages. */
  ghost predicate NextRequest(settings: Settings, raw: seq<Message>, echo: Message, more: seq<Message>) {
    var pre := PreRepair(settings, raw + ([echo] + more));
    && echo.role == Assistant
    && (forall m | m in more :: NormalRole(m.role) != System)
    && HasNotice(pre[|raw|])
    && forall j | |raw| < j < |pre| :: !HasNotice(pre[j])
  }

  /** The tool-call id that both the response and its echo carry. */
  ghost predicate SharedCallId(response: Message, echo: Message, id: string) {
    && id != ""
    && (exists i :: 0 <= i < |response.toolCalls| && Printed(response.toolCalls[i].id) == id)
    && (exists i :: 0 <= i < |echo.toolCalls| && Printed(echo.toolCalls[i].id) == id)
  }

  /** Every row that was recorded for the response is still in the store. */
  ghost predicate StillRecorded(rows: map<Key, Row>, prepared: Prepared, response: Message) {
    forall c, k | c in prepared.contexts && k in MessageKeys(response, c.scope, Some(prepared.namespace), c.messages) ::
      k in rows
  }

  lemma PortableIdKey(message: Message, scope: Scope, namespace: Namespace, prior: seq<Message>, id: string)
    requires prior != [] && id != ""
    requires exists i :: 0 <= i < |message.toolCalls| && Printed(message.toolCalls[i].id) == id
    ensures Portable(namespace, TurnContext(prior), CallId(id)) in MessageKeys(message, scope, Some(namespace), prior)
  {
    var i :| 0 <= i < |message.toolCalls| && Printed(message.toolCalls[i].id) == id;
    CallIdIsKey(message, scope, Some(namespace), prior, i);
  }

  /** Request k + 1 is cut at the echoed turn. */
  lemma EchoedHead(settings: Settings, raw: seq<Message>, echo: Message, more: seq<Message>)
    requires settings.thinking && settings.strategy == Recover && NextRequest(settings, raw, echo, more)
    ensures var pre := PreRepair(settings, raw + ([echo] + more)); var head := HeadAt(pre, |raw|);
      && |raw| < |pre| && pre[..|raw|] == PreRepair(settings, raw)
      && MessagesForRepair(settings, pre) == head + pre[|raw|..]
      && OneShot.NoticePosition(pre) == |head|
  {
    hide NoticeText, RecoverySystem, NextRequest, PreRepair, ContextUser, Leading;
    var pre := PreRepair(settings, raw + ([echo] + more));
    EchoIsLastNotice(settings, raw, echo, more);
    Session.PreRepairConcat(settings, raw, [echo] + more);
    assert CutAt(pre, |raw|) == HeadAt(pre, |raw|) + pre[|raw|..];
  }

  lemma EchoIsLastNotice(settings: Settings, raw: seq<Message>, echo: Message, more: seq<Message>)
    requires NextRequest(settings, raw, echo, more)
    ensures var pre := PreRepair(settings, raw + ([echo] + more)); |raw| < |pre| && LastNotice(pre) == |raw|
  {
    hide HasNotice;
    LastNoticeUnique(PreRepair(settings, raw + ([echo] + more)), |raw|);
  }

  function HeadAt(pre: seq<Message>, i: nat): seq<Message>
    requires i <= |pre|
  {
    Leading(pre) + [RecoverySystem()] + ContextUser(pre, i)
  }

  /** What request k + 1 puts before the echoed turn: system messages and the old question. */
  lemma HeadOfNextRequest(settings: Settings, raw: seq<Message>, echo: Message,
                          more: seq<Message>) returns (head: seq<Message>)
    requires settings.thinking && settings.strategy == Recover
    requires NextRequest(settings, raw, echo, more) && Question(PreRepair(settings, raw)).Some?
    ensures var pre := PreRepair(settings, raw + ([echo] + more)); var start := MessagesForRepair(settings, pre);
      && |head| < |start| && start[..|head|] == head && start[|head|] == pre[|raw|]
      && OneShot.NoticePosition(pre) == |head|
    ensures Settled(head) && Question(head) == Question(PreRepair(settings, raw))
    ensures head != [] && head[|head| - 1].role == User
    ensures forall j | 0 <= j < |head| - 1 :: head[j].role == System
  {
    RecoverySystemRole();
    RecoverySystemIsSettled();
    hide NoticeText, RecoverySystem, Settled, Plain, MessagesForRepair, PreRepair, NextRequest;
    var pre, i := PreRepair(settings, raw + ([echo] + more)), |raw|;
    EchoedHead(settings, raw, echo, more);
    head := HeadAt(pre, i);
    HeadIsSettled(settings, raw + ([echo] + more), i);
    ContextQuestion(pre, i);
    NoQuestion(Leading(pre) + [RecoverySystem()]);
    QuestionConcat(Leading(pre) + [RecoverySystem()], ContextUser(pre, i));
  }

  lemma HeadIsSettled(settings: Settings, raw: seq<Message>, i: nat)
    requires i <= |raw|
    ensures var pre := PreRepair(settings, raw);
      Settled(Leading(pre) + [RecoverySystem()] + ContextUser(pre, i))
  {
    RecoverySystemIsSettled();
    hide NoticeText, RecoverySystem, Plain;
    var pre := PreRepair(settings, raw);
    NormalizedIsSettled(NoStore, raw, None, Policy(false, settings.thinking));
    SettledConcat(Leading(pre), [RecoverySystem()]);
    SettledConcat(Leading(pre) + [RecoverySystem()], ContextUser(pre, i));
  }

  /** A message one of whose keys is in the store is not missing. */
  lemma FoundIsNotMissing(env: Env, table: Table, raw: Message, namespace: Namespace, prior: seq<Message>, key: Key)
    requires key in MessageKeys(Shape(raw), ConversationScope(prior, Some(namespace)), Some(namespace), prior)
    requires key in table.rows
    ensures NormalizeOne(Backed(env, table), raw, Some(namespace), Policy(true, true), prior).outcome != Missing
  {
    hide Shape, MessageKeys, BackfillOps, ConversationScope, NeedsReasoning, FilterFields, ApplyAll;
  }

  /** The history before the echoed turn, normalised in request k + 1: no writes, and the old turn. */
  lemma PriorOfEcho(env: Env, table: Table, head: seq<Message>, namespace: Namespace, question: Option<Message>)
    requires Settled(head) && Question(head) == question
    requires head != [] && head[|head| - 1].role == User
    requires forall j | 0 <= j < |head| - 1 :: head[j].role == System
    ensures var before := NormalizeAll(Backed(env, table), head, Some(namespace), Policy(true, true));
      && before.backend == Backed(env, table)
      && before.messages != []
      && question.Some? && TurnContext(before.messages) == [question.value]
  {
    hide Settled, OnlyQuestion, Question, NormalizeAll, TurnContext;
    var before := NormalizeAll(Backed(env, table), head, Some(namespace), Policy(true, true));
    KeptIsOnlyQuestion(Backed(env, table), head, Some(namespace), Policy(true, true));
    NormalizedKeepsQuestion(Backed(env, table), head, Some(namespace), Policy(true, true));
    OnlyQuestionFacts(before.messages, question);
    NoAssistantNoWrite(Backed(env, table), head, Some(namespace), Policy(true, true));
  }

  /** The echoed turn as request k + 1 first sees it. */
  lemma EchoInNextRequest(settings: Settings, raw: seq<Message>, echo: Message, more: seq<Message>)
    requires echo.role == Assistant
    ensures var m := PreRepair(settings, raw + ([echo] + more))[|raw|];
      && m.role == Assistant && m.toolCalls == NormalizeToolCalls(echo.toolCalls)
      && Shape(m).toolCalls == m.toolCalls
  {
    hide Thinking.Strip;
    Session.PreAt(settings, raw + ([echo] + more), |raw|);
    assert (raw + ([echo] + more))[|raw|] == echo;
    NormalizeToolCallsIdempotent(echo.toolCalls);
  }

  lemma NormalizedCallKeepsId(calls: seq<ToolCall>, id: string)
    requires id != "" && exists i :: 0 <= i < |calls| && Printed(calls[i].id) == id
    ensures exists i :: 0 <= i < |NormalizeToolCalls(calls)| && Printed(NormalizeToolCalls(calls)[i].id) == id
  {
    var i :| 0 <= i < |calls| && Printed(calls[i].id) == id;
    assert Printed(NormalizeToolCalls(calls)[i].id) == id;
  }

  /** The recovered turn is never reported missing: as long as its rows are kept, some key finds its
      reasoning in the next request, through the portable turn key when nothing else matches. */
  lemma RecoveredTurnIsFound(backend: Backend, env: Env, table: Table, settings: Settings,
                             raw: seq<Message>, response: Message, echo: Message, more: seq<Message>, id: string)
    requires settings.thinking && settings.strategy == Recover
    requires PrepareRequest(backend, settings, raw).notice != ""
    requires response.role == Assistant && response.reasoning.Some?
    requires NextRequest(settings, raw, echo, more) && SharedCallId(response, echo, id)
    requires StillRecorded(table.rows, PrepareRequest(backend, settings, raw), response)
    ensures var next := raw + ([echo] + more);
      var first, p := FirstPass(Backed(env, table), settings, next).history,
                      OneShot.NoticePosition(PreRepair(settings, next));
      && p < |first.messages|
      && first.messages[p].role == Assistant
      && first.messages[p].toolCalls == NormalizeToolCalls(echo.toolCalls)
      && p !in first.missing
  {
    hide NoticeText, RecoverySystem, Settled, OnlyQuestion, Question, MessageKeys, Plain, NormalizeOne, PrepareRequest;
    var next := raw + ([echo] + more);
    var pre, namespace := PreRepair(settings, next), SessionNamespace(settings, next);
    var context := RecoveredContext(backend, settings, raw);
    var head := HeadOfNextRequest(settings, raw, echo, more);
    var start, p := MessagesForRepair(settings, pre), |head|;
    var question := Question(PreRepair(settings, raw));
    PriorOfEcho(env, table, head, namespace, question);
    var prior := NormalizeAll(Backed(env, table), head, Some(namespace), Policy(true, true)).messages;
    Session.NamespaceIsStable(settings, raw, [echo] + more);
    Session.PreparedNamespace(backend, settings, raw);
    var key := Portable(namespace, [question.value], CallId(id));
    PortableIdKey(response, context.scope, namespace, context.messages, id);
    assert key in table.rows;
    EchoInNextRequest(settings, raw, echo, more);
    NormalizedCallKeepsId(echo.toolCalls, id);
    PortableIdKey(Shape(pre[|raw|]), ConversationScope(prior, Some(namespace)), namespace, prior, id);
    FoundIsNotMissing(env, table, pre[|raw|], namespace, prior, key);
    KeyStability.NormalizedAt(Backed(env, table), start, Some(namespace), Policy(true, true), p);
    EchoAfterPass(Backed(env, table), start, namespace, p);
  }

  lemma EchoAfterPass(backend: Backend, start: seq<Message>, namespace: Namespace, p: nat)
    requires p < |start| && start[p].role == Assistant && Shape(start[p]).toolCalls == start[p].toolCalls
    ensures var m := NormalizeAll(backend, start, Some(namespace), Policy(true, true)).messages[p];
      m.role == Assistant && m.toolCalls == start[p].toolCalls
  {
    KeyStability.PlainAt(backend, start, Some(namespace), Policy(true, true), p);
  }

  /** The notice survives the way through the client, printed behind a thinking block or not. */
  lemma NoticeSurvivesEcho(settings: Settings, raw: seq<Message>, echo: Message, more: seq<Message>,
                           collapsible: bool, reasoning: string, text: string)
    requires echo.role == Assistant && Thinking.NoClosingTag(collapsible, reasoning)
    requires var body := NoticeContent() + text;
      || echo.content == Some(body)
      || echo.content == Some(Thinking.BlockStart(collapsible) + reasoning + Thinking.BlockEnd(collapsible) + body)
    ensures HasNotice(PreRepair(settings, raw + ([echo] + more))[|raw|])
  {
    NoticeSurvivesStrip(text);
    hide Thinking.Strip, Thinking.BlockStart, Thinking.BlockEnd;
    Thinking.StripPrintedBlock(collapsible, reasoning, NoticeContent() + text);
    Session.PreAt(settings, raw + ([echo] + more), |raw|);
    assert (raw + ([echo] + more))[|raw|] == echo;
  }

  lemma NoticeSurvivesStrip(text: string)
    ensures IsPrefix(NoticeText(), Thinking.Strip(NoticeContent() + text))
    ensures Thinking.TrimSpace(NoticeContent() + text) == NoticeContent() + text
  {
    NoticeTextShape();
    hide NoticeText;
    var rest := "\n\n" + text;
    assert NoticeContent() + text == NoticeText() + rest;
    Thinking.StripKeepsPrefix(NoticeText(), rest);
  }

  // ----- The active scope -----

  lemma LeadingOfSameRoles(a: seq<Message>, b: seq<Message>)
    requires LastUser(b) >= 0 && |b| <= |a|
    requires forall j | 0 <= j < |b| :: a[j].role == b[j].role
    ensures |Leading(a)| == |Leading(b)| <= LastUser(b)
  {
    LastUserKept(b);
    LeadingUnique(a, |Leading(b)|);
  }

  /** Same roles, and the same canonical form wherever stripping plays no part. */
  ghost predicate Agree(a: seq<Message>, b: seq<Message>) {
    && |a| == |b|
    && (forall j | 0 <= j < |b| :: a[j].role == b[j].role)
    && (forall j | 0 <= j < |b| && b[j].role != Assistant :: CanonicalScopeMessage(a[j]) == CanonicalScopeMessage(b[j]))
  }

  lemma OnePlain(a: Message, b: Message)
    requires Plain(a) == Plain(b)
    ensures PlainAll([a]) == PlainAll([b])
  {
    hide Plain;
  }

  lemma AgreePlainly(a: seq<Message>, b: seq<Message>, j: nat)
    requires Settled(a) && Settled(b) && Agree(a, b) && j < |b| && b[j].role != Assistant
    ensures Plain(a[j]) == Plain(b[j])
  {
    hide Plain;
  }

  lemma PlainAllConcat(a: seq<Message>, b: seq<Message>)
    ensures PlainAll(a + b) == PlainAll(a) + PlainAll(b)
  {
  }

  lemma LeadingAgree(a: seq<Message>, b: seq<Message>)
    requires Settled(a) && Settled(b) && Agree(a, b) && LastUser(b) >= 0
    ensures PlainAll(Leading(a)) == PlainAll(Leading(b))
  {
    LeadingOfSameRoles(a, b);
    hide Plain, Settled, Agree;
    forall j: nat | j < |Leading(b)|
      ensures Plain(Leading(a)[j]) == Plain(Leading(b)[j])
    {
      AgreePlainly(a, b, j) by { assert b[j].role == System; }
      assert Leading(a)[j] == a[j] && Leading(b)[j] == b[j];
    }
  }

  /** What recovery at the last user keeps. */
  function KeptByLastUser(messages: seq<Message>): seq<Message>
    requires LastUser(messages) >= 0
  {
    Leading(messages) + [RecoverySystem()] + [messages[LastUser(messages)]]
  }

  /** Two histories kept by recovery agree canonically when what they were cut from does. */
  lemma KeptAgree(a: seq<Message>, b: seq<Message>)
    requires Settled(a) && Settled(b) && Agree(a, b) && LastUser(b) >= 0
    ensures LastUser(a) == LastUser(b)
    ensures PlainAll(KeptByLastUser(a)) == PlainAll(KeptByLastUser(b))
  {
    hide RecoverySystem, NoticeText, Plain, PlainAll, Settled, Leading;
    AgreeOnUser(a, b);
    AgreePlainly(a, b, LastUser(b));
    LeadingAgree(a, b);
    OnePlain(a[LastUser(a)], b[LastUser(b)]);
    PlainAllConcat(Leading(a) + [RecoverySystem()], [a[LastUser(a)]]);
    PlainAllConcat(Leading(b) + [RecoverySystem()], [b[LastUser(b)]]);
    PlainAllConcat(Leading(a), [RecoverySystem()]);
    PlainAllConcat(Leading(b), [RecoverySystem()]);
  }

  lemma NormalizedAgrees(backend: Backend, pre: seq<Message>, namespace: Option<Namespace>, policy: Policy)
    requires Settled(pre)
    ensures Agree(NormalizeAll(backend, pre, namespace, policy).messages, pre)
  {
    hide Plain;
    forall j: nat | j < |pre|
      ensures NormalizeAll(backend, pre, namespace, policy).messages[j].role == pre[j].role
      ensures CanonicalScopeMessage(NormalizeAll(backend, pre, namespace, policy).messages[j]) == Plain(pre[j])
    {
      KeyStability.PlainAt(backend, pre, namespace, policy, j);
    }
  }

  /** The end of a request that recovered without an earlier notice: one cut of its own history. */
  lemma EndOfFreshRecovery(backend: Backend, settings: Settings, raw: seq<Message>)
    requires settings.thinking && settings.strategy == Recover
    requires PrepareRequest(backend, settings, raw).notice != ""
    requires RecoveryBoundary(PreRepair(settings, raw)).NoBoundary?
    requires OneShot.FoundBeforeNotices(backend, StartOf(settings, raw), Some(SessionNamespace(settings, raw)))
    ensures LastUser(PreRepair(settings, raw)) >= 0
    ensures Canonical(Repaired(backend, settings, raw).history.messages)
         == PlainAll(KeptByLastUser(PreRepair(settings, raw)))
  {
    hide NoticeText, RecoverySystem, Settled, Agree, Plain;
    var pre := PreRepair(settings, raw);
    var namespace, first := CacheNamespace(settings, pre), FirstPass(backend, settings, raw);
    var messages := first.history.messages;
    OneShot.LoopRunsAtMostOnce(backend, settings, raw);
    var r := RecoverFromMissing(messages, first.history.missing);
    RecoveryProgress(messages, first.history.missing);
    NormalizedIsSettled(NoStore, raw, None, Policy(false, settings.thinking));
    NormalizedIsSettled(backend, pre, Some(namespace), RepairPolicy(settings));
    NormalizedAgrees(backend, pre, Some(namespace), RepairPolicy(settings));
    AgreeOnUser(messages, pre);
    KeptAgree(messages, pre);
    KeyStability.CanonicalOfNormalized(first.history.backend, r.messages, Some(namespace), RepairPolicy(settings));
  }

  lemma AgreeOnUser(a: seq<Message>, b: seq<Message>)
    requires Agree(a, b)
    ensures LastUser(a) == LastUser(b)
  {
    LastUserUnique(a, LastUser(b));
  }

  /** What request k + 1 keeps before the echoed turn is what recovery at the last user would keep
      of request k's history. */
  lemma HeadIsKept(settings: Settings, raw: seq<Message>, echo: Message,
                   more: seq<Message>) returns (head: seq<Message>)
    requires settings.thinking && settings.strategy == Recover
    requires NextRequest(settings, raw, echo, more) && LastUser(PreRepair(settings, raw)) >= 0
    ensures head == KeptByLastUser(PreRepair(settings, raw))
    ensures var pre := PreRepair(settings, raw + ([echo] + more)); var p := OneShot.NoticePosition(pre);
      p <= |MessagesForRepair(settings, pre)| && MessagesForRepair(settings, pre)[..p] == head
  {
    hide NoticeText, RecoverySystem, MessagesForRepair, PreRepair, NextRequest, HeadAt, KeptByLastUser,
      OneShot.NoticePosition;
    EchoedHead(settings, raw, echo, more);
    head := HeadAt(PreRepair(settings, raw + ([echo] + more)), |raw|);
    HeadAtIsKept(PreRepair(settings, raw + ([echo] + more)), |raw|);
  }

  lemma HeadAtIsKept(pre: seq<Message>, i: nat)
    requires i <= |pre| && LastUser(pre[..i]) >= 0
    ensures HeadAt(pre, i) == KeptByLastUser(pre[..i])
  {
    hide RecoverySystem;
    LeadingOfSameRoles(pre, pre[..i]);
    assert Leading(pre) == pre[..|Leading(pre)|] == pre[..i][..|Leading(pre)|];
  }

  /** When request k had no earlier notice, request k + 1 looks the echoed turn up under exactly the
      scope that its response was recorded under. */
  lemma EchoIsUnderActiveScope(backend: Backend, again: Backend, settings: Settings, raw: seq<Message>, echo: Message,
                               more: seq<Message>, namespace: Namespace)
    requires settings.thinking && settings.strategy == Recover
    requires PrepareRequest(backend, settings, raw).notice != ""
    requires RecoveryBoundary(PreRepair(settings, raw)).NoBoundary?
    requires OneShot.FoundBeforeNotices(backend, StartOf(settings, raw), Some(SessionNamespace(settings, raw)))
    requires NextRequest(settings, raw, echo, more)
    ensures var pre := PreRepair(settings, raw + ([echo] + more)); var p := OneShot.NoticePosition(pre);
      && p <= |MessagesForRepair(settings, pre)|
      && ConversationScope(NormalizeAll(again, MessagesForRepair(settings, pre)[..p], Some(namespace),
                                        Policy(true, true)).messages,
                           Some(namespace))
         == ConversationScope(Repaired(backend, settings, raw).history.messages, Some(namespace))
  {
    hide NoticeText, RecoverySystem, PrepareRequest, Repaired, KeptByLastUser, NextRequest, MessagesForRepair;
    EndOfFreshRecovery(backend, settings, raw);
    var head := HeadIsKept(settings, raw, echo, more);
    KeyStability.CanonicalOfNormalized(again, head, Some(namespace), Policy(true, true));
  }

  /** The rows recorded for the response are still there and still hold its reasoning. */
  ghost predicate StillExact(rows: map<Key, Row>, prepared: Prepared, response: Message) {
    forall c, k | c in prepared.contexts && k in MessageKeys(response, c.scope, Some(prepared.namespace), c.messages) ::
      k in rows && Some(rows[k].reasoning) == response.reasoning
  }

  lemma ActiveRow(backend: Backend, settings: Settings, raw: seq<Message>, rows: map<Key, Row>, response: Message)
    requires StillExact(rows, PrepareRequest(backend, settings, raw), response)
    ensures var scope := ConversationScope(Repaired(backend, settings, raw).history.messages,
                                           Some(SessionNamespace(settings, raw)));
      var key := Scoped(scope, MessageSignature(response));
      key in rows && Some(rows[key].reasoning) == response.reasoning
  {
    hide MessageKeys, PrepareRequest, Repaired;
    var context := ActiveContext(backend, settings, raw);
    Session.PreparedNamespace(backend, settings, raw);
    Session.FirstMessageKey(response, context.scope, Some(PrepareRequest(backend, settings, raw).namespace),
                            context.messages);
  }

  /** The scope under which request k + 1 looks the echoed turn up is the active scope of request k. */
  lemma EchoPrior(backend: Backend, env: Env, table: Table, settings: Settings, raw: seq<Message>, echo: Message,
                  more: seq<Message>) returns (head: seq<Message>)
    requires settings.thinking && settings.strategy == Recover
    requires PrepareRequest(backend, settings, raw).notice != ""
    requires RecoveryBoundary(PreRepair(settings, raw)).NoBoundary?
    requires OneShot.FoundBeforeNotices(backend, StartOf(settings, raw), Some(SessionNamespace(settings, raw)))
    requires NextRequest(settings, raw, echo, more)
    ensures var pre, ns := PreRepair(settings, raw + ([echo] + more)), Some(SessionNamespace(settings, raw));
      var start := MessagesForRepair(settings, pre);
      var before := NormalizeAll(Backed(env, table), head, ns, Policy(true, true));
      && |head| == OneShot.NoticePosition(pre) < |start| && start[..|head|] == head && start[|head|] == pre[|raw|]
      && before.backend == Backed(env, table)
      && ConversationScope(before.messages, ns) == ConversationScope(Repaired(backend, settings, raw).history.messages,
                                                                     ns)
  {
    hide NoticeText, RecoverySystem, Settled, Question, PrepareRequest, Repaired, NextRequest;
    var namespace := SessionNamespace(settings, raw);
    var _ := RecoveredContext(backend, settings, raw);
    head := HeadOfNextRequest(settings, raw, echo, more);
    PriorOfEcho(env, table, head, namespace, Question(PreRepair(settings, raw)));
    EchoIsUnderActiveScope(backend, Backed(env, table), settings, raw, echo, more, namespace);
  }

  lemma ExactlyPatched(env: Env, table: Table, raw: Message, namespace: Namespace, prior: seq<Message>,
                       reasoning: string)
    requires raw.role == Assistant && raw.reasoning == None && Shape(raw).toolCalls != []
    requires var key := Scoped(ConversationScope(prior, Some(namespace)), MessageSignature(Shape(raw)));
      key in table.rows && table.rows[key].reasoning == reasoning
    ensures NormalizeOne(Backed(env, table), raw, Some(namespace), Policy(true, true), prior).message.reasoning
      == Some(reasoning)
  {
    ShapeKeepsRole(raw);
    hide Shape, MessageKeys, Lookup, BackfillOps, ConversationScope, FollowsTool, MessageSignature, ApplyAll;
    Session.FirstKeyHits(table, Shape(raw), namespace, prior, reasoning);
  }

  lemma ShapeKeepsRole(raw: Message)
    ensures Shape(raw).role == NormalRole(raw.role) && Shape(raw).reasoning == raw.reasoning
  {
    hide NormalContent;
  }

  /** After a recovery without an earlier notice, an echo that keeps its content is patched with
      exactly the reasoning of its response, under the active scope. */
  lemma RecoveredTurnIsExact(backend: Backend, env: Env, table: Table, settings: Settings,
                             raw: seq<Message>, response: Message, echo: Message, more: seq<Message>)
    requires settings.thinking && settings.strategy == Recover
    requires PrepareRequest(backend, settings, raw).notice != ""
    requires RecoveryBoundary(PreRepair(settings, raw)).NoBoundary?
    requires OneShot.FoundBeforeNotices(backend, StartOf(settings, raw), Some(SessionNamespace(settings, raw)))
    requires response.role == Assistant && response.reasoning.Some?
    requires NextRequest(settings, raw, echo, more) && echo.toolCalls != [] && echo.reasoning == None
    requires MessageSignature(Shape(PreRepair(settings, raw + ([echo] + more))[|raw|])) == MessageSignature(response)
    requires StillExact(table.rows, PrepareRequest(backend, settings, raw), response)
    ensures var next := raw + ([echo] + more);
      var first, p := FirstPass(Backed(env, table), settings, next).history,
                      OneShot.NoticePosition(PreRepair(settings, next));
      p < |first.messages| && first.messages[p].reasoning == response.reasoning
  {
    hide NoticeText, RecoverySystem, MessageKeys, NormalizeOne, PrepareRequest, Repaired, StillExact, Shape;
    var next := raw + ([echo] + more);
    var pre, namespace := PreRepair(settings, next), SessionNamespace(settings, next);
    Session.NamespaceIsStable(settings, raw, [echo] + more);
    ActiveRow(backend, settings, raw, table.rows, response);
    var head := EchoPrior(backend, env, table, settings, raw, echo, more);
    var prior := NormalizeAll(Backed(env, table), head, Some(namespace), Policy(true, true)).messages;
    EchoInNextRequest(settings, raw, echo, more);
    Session.PreAt(settings, next, |raw|);
    assert next[|raw|] == echo;
    ExactlyPatched(env, table, pre[|raw|], namespace, prior, response.reasoning.value);
    KeyStability.NormalizedAt(Backed(env, table), MessagesForRepair(settings, pre), Some(namespace),
                              Policy(true, true), |head|);
  }

  // ----- After any number of cuts -----

  lemma {:induction false} FirstHitAlike(rows: map<Key, Row>, a: seq<Key>, b: seq<Key>, reasoning: string)
    requires forall k | k in a && k in rows :: rows[k].reasoning == reasoning
    requires b != [] && b[0] in rows && rows[b[0]].reasoning == reasoning
    ensures FirstHit(rows, a + b) == Some(reasoning)
  {
    if a == [] {
      assert a + b == b;
    } else {
      assert (a + b)[0] == a[0] && (a + b)[1..] == a[1..] + b;
      FirstHitAlike(rows, a[1..], b, reasoning);
    }
  }

  lemma PatchedAsFound(env: Env, table: Table, raw: Message, namespace: Namespace, prior: seq<Message>,
                       reasoning: string)
    requires raw.role == Assistant && raw.reasoning == None && Shape(raw).toolCalls != []
    requires Lookup(table, Shape(raw), ConversationScope(prior, Some(namespace)), Some(namespace), prior)
          == Some(reasoning)
    ensures NormalizeOne(Backed(env, table), raw, Some(namespace), Policy(true, true), prior).message.reasoning
         == Some(reasoning)
  {
    ShapeKeepsRole(raw);
    hide Shape, MessageKeys, Lookup, BackfillOps, ConversationScope, FollowsTool, MessageSignature, ApplyAll;
  }

  /** The scope under which request k + 1 looks the echoed turn up, told from the request alone. */
  function EchoScope(settings: Settings, next: seq<Message>): Scope {
    var p, start := OneShot.NoticePosition(PreRepair(settings, next)), StartOf(settings, next);
    Scope(Some(SessionNamespace(settings, next)), PlainAll(if p <= |start| then start[..p] else start))
  }

  /** The portable row of a response that a recovered request was answered with. */
  lemma PortableRow(backend: Backend, settings: Settings, raw: seq<Message>, rows: map<Key, Row>, response: Message)
    requires settings.thinking && settings.strategy == Recover
    requires PrepareRequest(backend, settings, raw).notice != ""
    requires StillExact(rows, PrepareRequest(backend, settings, raw), response)
    ensures Question(PreRepair(settings, raw)).Some?
    ensures var key := Portable(SessionNamespace(settings, raw), [Question(PreRepair(settings, raw)).value],
                                MessageSignature(response));
      key in rows && Some(rows[key].reasoning) == response.reasoning
  {
    hide NoticeText, RecoverySystem, PrepareRequest, Question, TurnContext, PreRepair, SessionNamespace,
      MessageSignature;
    var context := RecoveredContext(backend, settings, raw);
    Session.PreparedNamespace(backend, settings, raw);
    FirstPortableKey(response, context.scope, SessionNamespace(settings, raw), context.messages);
  }

  lemma FirstPortableKey(message: Message, scope: Scope, namespace: Namespace, prior: seq<Message>)
    requires prior != []
    ensures var portable := PortableKeys(message, Some(namespace), prior);
      && portable != [] && portable[0] == Portable(namespace, TurnContext(prior), MessageSignature(message))
      && MessageKeys(message, scope, Some(namespace), prior) == ScopedKeys(message, scope) + portable
      && portable[0] in MessageKeys(message, scope, Some(namespace), prior)
  {
    hide MessageSignature, TurnContext;
    assert Aliases(message)[0] == MessageSignature(message);
  }

  /** However often the history was cut before: an echo that keeps its content is patched with exactly the
      reasoning of its response, through the portable signature if not earlier, as long as no scoped row of
      the echo holds another reasoning. */
  lemma RecoveredTurnIsExactByTurn(backend: Backend, env: Env, table: Table, settings: Settings,
                                   raw: seq<Message>, response: Message, echo: Message, more: seq<Message>)
    requires settings.thinking && settings.strategy == Recover
    requires PrepareRequest(backend, settings, raw).notice != ""
    requires response.role == Assistant && response.reasoning.Some?
    requires NextRequest(settings, raw, echo, more) && echo.toolCalls != [] && echo.reasoning == None
    requires MessageSignature(Shape(PreRepair(settings, raw + ([echo] + more))[|raw|])) == MessageSignature(response)
    requires StillExact(table.rows, PrepareRequest(backend, settings, raw), response)
    requires var next := raw + ([echo] + more);
      forall k | k in ScopedKeys(Shape(PreRepair(settings, next)[|raw|]), EchoScope(settings, next))
          && k in table.rows ::
        Some(table.rows[k].reasoning) == response.reasoning
    ensures var next := raw + ([echo] + more);
      var first, p := FirstPass(Backed(env, table), settings, next).history,
                      OneShot.NoticePosition(PreRepair(settings, next));
      p < |first.messages| && first.messages[p].reasoning == response.reasoning
  {
    hide NoticeText, RecoverySystem, MessageKeys, ScopedKeys, PortableKeys, NormalizeOne, NormalizeAll, PrepareRequest,
      StillExact, Shape, Settled, Question, TurnContext, MessageSignature, PreRepair, MessagesForRepair, CacheNamespace,
      NextRequest;
    var next := raw + ([echo] + more);
    var echoed, namespace := PreRepair(settings, next)[|raw|], SessionNamespace(settings, next);
    NextIsStable(settings, raw, echo, more);
    PortableRow(backend, settings, raw, table.rows, response);
    var head := HeadOfNextRequest(settings, raw, echo, more);
    PriorOfEcho(env, table, head, namespace, Question(PreRepair(settings, raw)));
    var prior := NormalizeAll(Backed(env, table), head, Some(namespace), Policy(true, true)).messages;
    KeyStability.CanonicalOfNormalized(Backed(env, table), head, Some(namespace), Policy(true, true));
    FirstPortableKey(Shape(echoed), EchoScope(settings, next), namespace, prior);
    FirstHitAlike(table.rows, ScopedKeys(Shape(echoed), EchoScope(settings, next)),
                  PortableKeys(Shape(echoed), Some(namespace), prior), response.reasoning.value);
    EchoInNextRequest(settings, raw, echo, more);
    PatchedAsFound(env, table, echoed, namespace, prior, response.reasoning.value);
    KeyStability.NormalizedAt(Backed(env, table), StartOf(settings, next), Some(namespace), Policy(true, true), |head|);
  }

  lemma NextIsStable(settings: Settings, raw: seq<Message>, echo: Message, more: seq<Message>)
    requires settings.thinking && NextRequest(settings, raw, echo, more)
    ensures SessionNamespace(settings, raw + ([echo] + more)) == SessionNamespace(settings, raw)
    ensures |raw| < |PreRepair(settings, raw + ([echo] + more))|
    ensures echo.role == Assistant
    ensures PreRepair(settings, raw + ([echo] + more))[|raw|].reasoning == echo.reasoning
    ensures echo.toolCalls != [] ==> Shape(PreRepair(settings, raw + ([echo] + more))[|raw|]).toolCalls != []
  {
    hide NoticeText, Thinking.Strip;
    var next := raw + ([echo] + more);
    Session.NamespaceIsStable(settings, raw, [echo] + more);
    Session.PreAt(settings, next, |raw|);
    assert next[|raw|] == echo;
  }

  /** Recording the response leaves exactly the rows that the next request needs, as far as they are not
      evicted; without limits none is. */
  lemma RecordingLeavesExactRows(env: Env, table: Table, prepared: Prepared, response: Message)
    requires response.role == Assistant && response.reasoning.Some?
    ensures var rows := ApplyAll(env, table, RecordOps([response], prepared.namespace, prepared.contexts)).rows;
      && (StillRecorded(rows, prepared, response) ==> StillExact(rows, prepared, response))
      && (NoEviction(env) ==> StillRecorded(rows, prepared, response))
  {
    hide MessageKeys, MessageOps, RecordOps, ApplyAll, NoEviction;
    var ops := MessageOps(response, prepared.namespace, prepared.contexts);
    StreamRecording.RecordOneMessage(response, prepared.namespace, prepared.contexts);
    StreamRecording.MessageOpsContents(response, prepared.namespace, prepared.contexts);
    var rows := ApplyAll(env, table, ops).rows;
    forall c, k | c in prepared.contexts && k in MessageKeys(response, c.scope, Some(prepared.namespace), c.messages)
      ensures k in rows ==> Some(rows[k].reasoning) == response.reasoning
      ensures NoEviction(env) ==> k in rows
    {
      PutsAreFound(env, table, ops, k, response.reasoning.value);
    }
  }
}
