/** Preparing a request for the upstream: keys, boundary pre-pass, repair, and the recovery loop. */
module Prepare {
  import opened Messages
  import opened JsonCanonical
  import opened Keys
  import opened ReasoningStore
  import opened Normalize
  import opened Recovery
  import KeyStability
  import Thinking

  datatype Strategy = Recover | Reject

  /** Configuration, credentials and the request fields that enter the cache namespace. The request's own
      `reasoning_effort`, null if absent, only counts when thinking is disabled. */
  datatype Settings = Settings(
    baseUrl: string,
    model: string,
    thinking: bool,
    effort: string,
    requestEffort: Json,
    authorization: string,
    userId: string,
    strategy: Strategy,
    tools: seq<Json>,
    toolChoice: Option<Json>)

  function RepairPolicy(settings: Settings): Policy {
    Policy(settings.thinking, settings.thinking)
  }

  /** The pass that computes keys: no store, no repair. */
  function PreRepair(settings: Settings, raw: seq<Message>): (r: seq<Message>)
    ensures |r| == |raw|
  {
    NormalizeAll(NoStore, raw, None, Policy(false, settings.thinking)).messages
  }

  // ----- Namespace -----

  function SystemMessages(messages: seq<Message>): seq<Message> {
    if messages == [] then []
    else if messages[0].role == System then
      [Message(System, messages[0].content, messages[0].name, None, None, [], None)] + SystemMessages(messages[1..])
    else SystemMessages(messages[1..])
  }

  function EffectiveToolChoice(tools: seq<Json>, explicit: Option<Json>): Json {
    if explicit.Some? then explicit.value
    else if |tools| > 0 then Text("auto")
    else Text("none")
  }

  function CacheNamespace(settings: Settings, messages: seq<Message>): Namespace {
    Namespace(settings.baseUrl, settings.model, settings.thinking,
              if settings.thinking then Text(settings.effort) else settings.requestEffort,
              settings.authorization, settings.userId,
              RuntimeContext(SystemMessages(messages), settings.tools,
                             EffectiveToolChoice(settings.tools, settings.toolChoice)))
  }

  lemma {:induction false} SystemMessagesConcat(a: seq<Message>, b: seq<Message>)
    ensures SystemMessages(a + b) == SystemMessages(a) + SystemMessages(b)
  {
    if a == [] {
      assert a + b == b;
    } else {
      assert (a + b)[1..] == a[1..] + b;
      SystemMessagesConcat(a[1..], b);
    }
  }

  // ----- Recording contexts -----

  datatype RecordingContext = RecordingContext(scope: Scope, messages: seq<Message>)

  predicate HasScope(contexts: seq<RecordingContext>, scope: Scope) {
    exists k :: 0 <= k < |contexts| && contexts[k].scope == scope
  }

  /** The first context of every scope. */
  function DistinctContexts(items: seq<RecordingContext>): (r: seq<RecordingContext>)
    ensures forall i, j | 0 <= i < j < |r| :: r[i].scope != r[j].scope
    ensures forall c | c in r :: c in items
  {
    if items == [] then [] else
    var rest := DistinctContexts(items[..|items| - 1]);
    var last := items[|items| - 1];
    if HasScope(rest, last.scope) then rest else rest + [last]
  }

  lemma {:induction false} EveryScopeIsKept(items: seq<RecordingContext>, i: nat)
    requires i < |items|
    ensures HasScope(DistinctContexts(items), items[i].scope)
  {
    var n := |items| - 1;
    var rest, last := DistinctContexts(items[..n]), items[n];
    if i < n {
      EveryScopeIsKept(items[..n], i);
      var k :| 0 <= k < |rest| && rest[k].scope == items[i].scope;
      assert DistinctContexts(items)[k] == rest[k];
    } else if !HasScope(rest, last.scope) {
      assert (rest + [last])[|rest|].scope == last.scope;
    }
  }

  /** Two contexts are recorded as one when their scopes agree, and otherwise both are kept. */
  lemma ContextPair(a: RecordingContext, b: RecordingContext)
    ensures DistinctContexts([a, b]) == if a.scope == b.scope then [a] else [a, b]
  {
    assert [a, b][..1] == [a] && [a][..0] == [];
    assert DistinctContexts([a]) == [a];
    assert [a][0].scope == a.scope;
    assert HasScope([a], b.scope) <==> a.scope == b.scope;
  }

  lemma HasScopeAppend(contexts: seq<RecordingContext>, context: RecordingContext)
    ensures forall s :: HasScope(contexts + [context], s) <==> HasScope(contexts, s) || s == context.scope
  {
    var all := contexts + [context];
    assert all[|contexts|] == context;
    forall s
      ensures HasScope(all, s) <==> HasScope(contexts, s) || s == context.scope
    {
      if k :| 0 <= k < |contexts| && contexts[k].scope == s {
        assert all[k].scope == s;
      }
    }
  }

  method ResponseRecordingContexts(items: seq<RecordingContext>) returns (contexts: seq<RecordingContext>)
    ensures contexts == DistinctContexts(items)
  {
    var seen: set<Scope> := {};
    contexts := [];
    for i := 0 to |items|
      invariant contexts == DistinctContexts(items[..i])
      invariant forall s :: s in seen <==> HasScope(contexts, s)
    {
      assert items[..i + 1][..i] == items[..i];
      HasScopeAppend(contexts, items[i]);
      if items[i].scope !in seen {
        seen := seen + {items[i].scope};
        contexts := contexts + [items[i]];
      }
    }
    assert items[..|items|] == items;
  }

  // ----- The recovery loop -----

  datatype LoopState = LoopState(history: History, recovered: nat, dropped: int, notice: string)

  ghost predicate MissingAreAssistants(history: History) {
    forall k | 0 <= k < |history.missing| ::
      history.missing[k] < |history.messages| && history.messages[history.missing[k]].role == Assistant
  }

  /** Only assistant messages can be missing their reasoning. */
  lemma NothingMissing(history: History)
    requires MissingAreAssistants(history) && AssistantCount(history.messages) == 0
    ensures history.missing == []
  {
    if history.missing != [] {
      SomeAssistantCount(history.messages, history.missing[0]);
    }
  }

  lemma NothingNormalized(backend: Backend, namespace: Option<Namespace>, policy: Policy)
    ensures var history := NormalizeAll(backend, [], namespace, policy);
      MissingAreAssistants(history) && AssistantCount(history.messages) == AssistantCount([])
  {
  }

  lemma OneIsSound(backend: Backend, raw: Message, namespace: Option<Namespace>, policy: Policy, prior: seq<Message>)
    ensures var one := NormalizeOne(backend, raw, namespace, policy, prior);
      && (one.outcome == Missing ==> one.message.role == Assistant)
      && AssistantCount([one.message]) == AssistantCount([raw])
  {
    KeyStability.OneIsPlain(backend, raw, namespace, policy, prior);
  }

  lemma {:induction false} NormalizedIsSound(backend: Backend, raw: seq<Message>, namespace: Option<Namespace>,
                                             policy: Policy)
    ensures MissingAreAssistants(NormalizeAll(backend, raw, namespace, policy))
    ensures AssistantCount(NormalizeAll(backend, raw, namespace, policy).messages) == AssistantCount(raw)
  {
    hide NormalizeOne, AssistantCount, Plain, CanonicalScopeMessage;
    if raw == [] {
      NothingNormalized(backend, namespace, policy);
    } else {
      var n := |raw| - 1;
      NormalizedIsSound(backend, raw[..n], namespace, policy);
      var before := NormalizeAll(backend, raw[..n], namespace, policy);
      var one := NormalizeOne(before.backend, raw[n], namespace, policy, before.messages);
      OneIsSound(before.backend, raw[n], namespace, policy, before.messages);
      AssistantCountConcat(before.messages, [one.message]);
      assert raw == raw[..n] + [raw[n]];
      AssistantCountConcat(raw[..n], [raw[n]]);
    }
  }

  datatype Step = Step(state: LoopState, done: bool)

  /** One iteration: it ends the loop when nothing was dropped. */
  function LoopStep(state: LoopState, namespace: Namespace, settings: Settings): Step {
    var r := RecoverFromMissing(state.history.messages, state.history.missing);
    var next := state.(recovered := state.recovered + |state.history.missing|,
                       dropped := state.dropped + r.dropped,
                       notice := if r.notice != "" then r.notice else state.notice);
    if r.dropped == 0 then Step(next, true) else
    Step(next.(history := NormalizeAll(state.history.backend, r.messages, Some(namespace), RepairPolicy(settings))),
         false)
  }

  lemma LoopProgress(state: LoopState, namespace: Namespace, settings: Settings)
    requires MissingAreAssistants(state.history) && state.history.missing != []
    ensures var step := LoopStep(state, namespace, settings);
      && MissingAreAssistants(step.state.history)
      && (!step.done ==> AssistantCount(step.state.history.messages) < AssistantCount(state.history.messages))
  {
    var r := RecoverFromMissing(state.history.messages, state.history.missing);
    RecoveryProgress(state.history.messages, state.history.missing);
    NormalizedIsSound(state.history.backend, r.messages, Some(namespace), RepairPolicy(settings));
  }

  /** The loop terminates for every history and store: assistant messages run out. */
  function RepairLoop(state: LoopState, namespace: Namespace, settings: Settings): LoopState
    requires MissingAreAssistants(state.history)
    decreases AssistantCount(state.history.messages)
  {
    if state.history.missing == [] || settings.strategy != Recover then state else
    LoopProgress(state, namespace, settings);
    var step := LoopStep(state, namespace, settings);
    if step.done then step.state else RepairLoop(step.state, namespace, settings)
  }

  // ----- Removing the notice -----

  function StripNotice(message: Message): Message {
    if HasNotice(message)
    then message.(content := Some(Thinking.TrimNewlines(message.content.value[|NoticeText()|..])))
    else message
  }

  function StripNotices(messages: seq<Message>): (r: seq<Message>)
    ensures |r| == |messages|
    ensures forall i | 0 <= i < |r| :: r[i] == StripNotice(messages[i])
  {
    seq(|messages|, i requires 0 <= i < |messages| => StripNotice(messages[i]))
  }

  method StripRecoveryNoticeForUpstream(messages: seq<Message>) returns (out: seq<Message>)
    ensures out == StripNotices(messages)
  {
    out := [];
    for i := 0 to |messages|
      invariant out == StripNotices(messages)[..i]
    {
      var message := messages[i];
      if message.role == Assistant && IsPrefix(NoticeText(), message.content.GetOr("")) {
        message := message.(content := Some(Thinking.TrimNewlines(message.content.value[|NoticeText()|..])));
      }
      out := out + [message];
    }
  }

  // ----- The whole preparation -----

  datatype Prepared = Prepared(
    outgoing: seq<Message>,
    namespace: Namespace,
    patched: nat,
    missing: nat,
    recovered: nat,
    dropped: int,
    notice: string,
    contexts: seq<RecordingContext>)

  function MessagesForRepair(settings: Settings, pre: seq<Message>): seq<Message> {
    if settings.thinking && settings.strategy == Recover && RecoveryBoundary(pre).Active?
    then RecoveryBoundary(pre).messages
    else pre
  }

  /** What the first repairing pass normalises. */
  function StartOf(settings: Settings, raw: seq<Message>): seq<Message> {
    MessagesForRepair(settings, PreRepair(settings, raw))
  }

  function SessionNamespace(settings: Settings, raw: seq<Message>): Namespace {
    CacheNamespace(settings, PreRepair(settings, raw))
  }

  /** The first repairing pass, before the loop. */
  function FirstPass(backend: Backend, settings: Settings, raw: seq<Message>): (r: LoopState)
    ensures MissingAreAssistants(r.history)
  {
    var pre := PreRepair(settings, raw);
    var start := MessagesForRepair(settings, pre);
    NormalizedIsSound(backend, start, Some(CacheNamespace(settings, pre)), RepairPolicy(settings));
    LoopState(NormalizeAll(backend, start, Some(CacheNamespace(settings, pre)), RepairPolicy(settings)), 0, 0, "")
  }

  function Repaired(backend: Backend, settings: Settings, raw: seq<Message>): LoopState {
    RepairLoop(FirstPass(backend, settings, raw), CacheNamespace(settings, PreRepair(settings, raw)), settings)
  }

  function PrepareRequest(backend: Backend, settings: Settings, raw: seq<Message>): Prepared {
    var pre := PreRepair(settings, raw);
    var namespace := CacheNamespace(settings, pre);
    var end := Repaired(backend, settings, raw);
    var contexts := DistinctContexts([
      RecordingContext(ConversationScope(pre, Some(namespace)), pre),
      RecordingContext(ConversationScope(end.history.messages, Some(namespace)), end.history.messages)]);
    Prepared(StripNotices(end.history.messages), namespace, end.history.patched, |end.history.missing|,
             end.recovered, end.dropped, end.notice, contexts)
  }

  method PrepareUpstreamRequest(store: Store?, settings: Settings, raw: seq<Message>) returns (prepared: Prepared)
    modifies store
    ensures prepared == PrepareRequest(old(BackendOf(store)), settings, raw)
    ensures BackendOf(store) == Repaired(old(BackendOf(store)), settings, raw).history.backend
  {
    var pre, _, _ := NormalizeMessages(null, raw, None, Policy(false, settings.thinking));
    var namespace := CacheNamespace(settings, pre);
    var recordContext := RecordingContext(ConversationScope(pre, Some(namespace)), pre);
    var messagesForRepair := pre;
    if settings.thinking && settings.strategy == Recover {
      var boundary := ActiveMessagesFromRecoveryBoundary(pre);
      if boundary.Active? {
        messagesForRepair := boundary.messages;
      }
    }
    var state := RepairWithLoop(store, settings, namespace, messagesForRepair);
    var messages := state.history.messages;
    var activeContext := RecordingContext(ConversationScope(messages, Some(namespace)), messages);
    var contexts := ResponseRecordingContexts([recordContext, activeContext]);
    var outgoing := StripRecoveryNoticeForUpstream(messages);
    prepared := Prepared(outgoing, namespace, state.history.patched, |state.history.missing|,
                         state.recovered, state.dropped, state.notice, contexts);
  }

  /** The loop; its local variables are held in one record. */
  method RepairWithLoop(store: Store?, settings: Settings, namespace: Namespace, start: seq<Message>)
    returns (state: LoopState)
    modifies store
    ensures state.history.backend == BackendOf(store)
    ensures
      var first := NormalizeAll(old(BackendOf(store)), start, Some(namespace), RepairPolicy(settings));
      && MissingAreAssistants(first)
      && state == RepairLoop(LoopState(first, 0, 0, ""), namespace, settings)
  {
    var history := NormalizeRecovered(store, settings, namespace, start);
    state := LoopState(history, 0, 0, "");
    ghost var result := RepairLoop(state, namespace, settings);
    while state.history.missing != [] && settings.strategy == Recover
      invariant state.history.backend == BackendOf(store)
      invariant MissingAreAssistants(state.history)
      invariant RepairLoop(state, namespace, settings) == result
      decreases AssistantCount(state.history.messages)
    {
      LoopProgress(state, namespace, settings);
      var done;
      state, done := Iterate(store, settings, namespace, state);
      if done {
        return;
      }
    }
  }

  method Iterate(store: Store?, settings: Settings, namespace: Namespace, state: LoopState)
    returns (next: LoopState, done: bool)
    requires state.history.backend == BackendOf(store)
    modifies store
    ensures next.history.backend == BackendOf(store)
    ensures Step(next, done) == LoopStep(state, namespace, settings)
  {
    hide NoticeText, RecoverySystem, RecoverFromMissing, NormalizeAll;
    var r := RecoverMessagesFromMissingReasoning(state.history.messages, state.history.missing);
    next := state.(recovered := state.recovered + |state.history.missing|, dropped := state.dropped + r.dropped);
    if r.notice != "" {
      next := next.(notice := r.notice);
    }
    if r.dropped == 0 {
      return next, true;
    }
    var history := NormalizeRecovered(store, settings, namespace, r.messages);
    return next.(history := history), false;
  }

  method NormalizeRecovered(store: Store?, settings: Settings, namespace: Namespace, recovered: seq<Message>)
    returns (history: History)
    modifies store
    ensures history == NormalizeAll(old(BackendOf(store)), recovered, Some(namespace), RepairPolicy(settings))
    ensures history.backend == BackendOf(store)
    ensures MissingAreAssistants(history)
    ensures AssistantCount(history.messages) == AssistantCount(recovered)
  {
    NormalizedIsSound(BackendOf(store), recovered, Some(namespace), RepairPolicy(settings));
    var messages, patched, missing := NormalizeMessages(store, recovered, Some(namespace), RepairPolicy(settings));
    history := History(messages, patched, missing, BackendOf(store));
  }
}
