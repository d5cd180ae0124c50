/** The promise of the repair engine: no assistant turn that needs reasoning goes upstream without it. */
module ReplayContract {
  import opened Messages
  import opened Keys
  import opened ReasoningStore
  import opened Normalize
  import opened Recovery
  import opened Prepare
  import KeyStability

  /** Message `i` is an assistant turn with tool calls, or one that answers a tool result. */
  ghost predicate NeedsReplay(messages: seq<Message>, i: nat)
    requires i < |messages|
  {
    && messages[i].role == Assistant
    && (messages[i].toolCalls != [] || exists j: nat :: OpenToolResult(messages[..i], j))
  }

  ghost predicate Replayed(messages: seq<Message>) {
    forall i: nat | i < |messages| && NeedsReplay(messages, i) :: messages[i].reasoning.Some?
  }

  // ----- The missing list is exact -----

  /** The missing list holds exactly the turns that need reasoning and have none. */
  ghost predicate MissingIsExact(history: History) {
    forall i: nat | i < |history.messages| ::
      i in history.missing <==>
        NeedsReplay(history.messages, i) && history.messages[i].reasoning.None?
  }

  lemma OneMissingIsExact(backend: Backend, raw: Message, namespace: Option<Namespace>, prior: seq<Message>)
    ensures var one := NormalizeOne(backend, raw, namespace, Policy(true, true), prior);
      one.outcome == Missing <==>
        one.message.role == Assistant && NeedsReasoning(one.message, prior) && one.message.reasoning.None?
  {
  }

  lemma NormalizedMissingIsExact(backend: Backend, raw: seq<Message>, namespace: Option<Namespace>)
    ensures MissingIsExact(NormalizeAll(backend, raw, namespace, Policy(true, true)))
  {
    hide NormalizeOne;
    var all := NormalizeAll(backend, raw, namespace, Policy(true, true));
    forall i: nat | i < |raw|
      ensures i in all.missing <==> NeedsReplay(all.messages, i) && all.messages[i].reasoning.None?
    {
      KeyStability.NormalizedAt(backend, raw, namespace, Policy(true, true), i);
      var before := NormalizeAll(backend, raw[..i], namespace, Policy(true, true));
      OneMissingIsExact(before.backend, raw[i], namespace, before.messages);
      FollowsToolMeaning(all.messages[..i]);
    }
  }

  lemma ExactMeansReplayed(history: History)
    requires MissingIsExact(history) && MissingAreAssistants(history)
    ensures Replayed(history.messages) <==> history.missing == []
  {
    if history.missing != [] {
      var i := history.missing[0];
      assert i in history.missing;
    }
  }

  lemma {:induction false} LoopKeepsExact(state: LoopState, namespace: Namespace, settings: Settings)
    requires MissingAreAssistants(state.history) && MissingIsExact(state.history)
    requires settings.thinking
    ensures MissingAreAssistants(RepairLoop(state, namespace, settings).history)
    ensures MissingIsExact(RepairLoop(state, namespace, settings).history)
    decreases AssistantCount(state.history.messages)
  {
    if state.history.missing != [] && settings.strategy == Recover {
      LoopProgress(state, namespace, settings);
      var step := LoopStep(state, namespace, settings);
      if !step.done {
        var r := RecoverFromMissing(state.history.messages, state.history.missing);
        NormalizedMissingIsExact(state.history.backend, r.messages, Some(namespace));
        LoopKeepsExact(step.state, namespace, settings);
      }
    }
  }

  lemma NeedsReplayOfStripped(messages: seq<Message>, i: nat)
    requires i < |messages|
    ensures NeedsReplay(StripNotices(messages), i) <==> NeedsReplay(messages, i)
  {
    var out := StripNotices(messages);
    assert forall j | 0 <= j < i :: out[..i][j].role == messages[..i][j].role;
    assert forall j: nat :: OpenToolResult(out[..i], j) <==> OpenToolResult(messages[..i], j);
  }

  /** Removing the notice text for upstream touches nothing that the contract looks at. */
  lemma NoticeRemovalKeepsContract(messages: seq<Message>)
    ensures Replayed(StripNotices(messages)) <==> Replayed(messages)
  {
    forall i: nat | i < |messages|
      ensures NeedsReplay(StripNotices(messages), i) <==> NeedsReplay(messages, i)
    {
      NeedsReplayOfStripped(messages, i);
    }
  }

  /** For every request, store and strategy the outgoing history meets the contract exactly when the
      reported number of missing turns is zero. */
  lemma ContractIffNothingMissing(backend: Backend, settings: Settings, raw: seq<Message>)
    requires settings.thinking
    ensures var prepared := PrepareRequest(backend, settings, raw);
      Replayed(prepared.outgoing) <==> prepared.missing == 0
  {
    var pre := PreRepair(settings, raw);
    var namespace := CacheNamespace(settings, pre);
    NormalizedMissingIsExact(backend, MessagesForRepair(settings, pre), Some(namespace));
    LoopKeepsExact(FirstPass(backend, settings, raw), namespace, settings);
    var end := Repaired(backend, settings, raw);
    ExactMeansReplayed(end.history);
    NoticeRemovalKeepsContract(end.history.messages);
  }

  // ----- A user message is enough -----

  ghost predicate HasUser(messages: seq<Message>) {
    exists i :: 0 <= i < |messages| && NormalRole(messages[i].role) == User
  }

  lemma NormalizedKeepsUser(backend: Backend, raw: seq<Message>, namespace: Option<Namespace>, policy: Policy)
    requires HasUser(raw)
    ensures LastUser(NormalizeAll(backend, raw, namespace, policy).messages) >= 0
  {
    var i :| 0 <= i < |raw| && NormalRole(raw[i].role) == User;
    KeyStability.PlainAt(backend, raw, namespace, policy, i);
  }

  lemma ContextUserIsUser(messages: seq<Message>, i: nat)
    requires i <= |messages| && 0 <= LastUser(messages) < i
    ensures ContextUser(messages, i) != [] && ContextUser(messages, i)[0].role == User
  {
    assert messages[..i][LastUser(messages)].role == User;
  }

  lemma MemberUser(messages: seq<Message>, i: nat)
    requires i < |messages| && messages[i].role == User
    ensures HasUser(messages)
  {
    assert NormalRole(messages[i].role) == User;
  }

  /** A cut keeps a user message: the context user, or one in the tail. */
  lemma CutKeepsUser(messages: seq<Message>, i: nat)
    requires i <= |messages| && LastUser(messages) >= 0
    ensures HasUser(CutAt(messages, i))
  {
    hide RecoverySystem, NoticeText, ContextUser, HasUser, Leading, LastUser;
    var head, context, tail := Leading(messages) + [RecoverySystem()], ContextUser(messages, i), messages[i..];
    UserSurvives(messages, i);
    HasUserConcat(head, context);
    HasUserConcat(head + context, tail);
  }

  lemma UserSurvives(messages: seq<Message>, i: nat)
    requires i <= |messages| && LastUser(messages) >= 0
    ensures HasUser(ContextUser(messages, i)) || HasUser(messages[i..])
  {
    hide HasUser, ContextUser;
    var user := LastUser(messages);
    if user < i {
      ContextUserIsUser(messages, i);
      MemberUser(ContextUser(messages, i), 0);
    } else {
      assert messages[i..][user - i] == messages[user];
      MemberUser(messages[i..], user - i);
    }
  }

  lemma HasUserConcat(a: seq<Message>, b: seq<Message>)
    ensures HasUser(a) || HasUser(b) ==> HasUser(a + b)
  {
    if HasUser(a) {
      var i :| 0 <= i < |a| && NormalRole(a[i].role) == User;
      assert NormalRole((a + b)[i].role) == User;
    } else if HasUser(b) {
      var i :| 0 <= i < |b| && NormalRole(b[i].role) == User;
      assert NormalRole((a + b)[|a| + i].role) == User;
    }
  }

  lemma RecoveryKeepsUser(messages: seq<Message>, missing: seq<nat>)
    requires LastUser(messages) >= 0
    ensures HasUser(RecoverFromMissing(messages, missing).messages)
  {
    hide RecoverySystem, NoticeText;
    var i := NoticeAfterMissing(messages, missing, |messages|);
    if i >= 0 {
      CutKeepsUser(messages, i);
    } else {
      var out := RecoverFromMissing(messages, missing).messages;
      assert NormalRole(out[|out| - 1].role) == User;
    }
  }

  /** With a user message left, the loop ends only when nothing is missing. */
  lemma {:induction false} LoopEndsComplete(state: LoopState, namespace: Namespace, settings: Settings)
    requires MissingAreAssistants(state.history)
    requires settings.strategy == Recover && LastUser(state.history.messages) >= 0
    ensures RepairLoop(state, namespace, settings).history.missing == []
    decreases AssistantCount(state.history.messages)
  {
    if state.history.missing != [] {
      LoopProgress(state, namespace, settings);
      RecoveryProgress(state.history.messages, state.history.missing);
      RecoveryKeepsUser(state.history.messages, state.history.missing);
      var r := RecoverFromMissing(state.history.messages, state.history.missing);
      NormalizedKeepsUser(state.history.backend, r.messages, Some(namespace), RepairPolicy(settings));
      LoopEndsComplete(LoopStep(state, namespace, settings).state, namespace, settings);
    }
  }

  /** The replay contract in recovery mode: one user message in the request is enough, whatever the
      store holds and whatever the history looks like. */
  lemma RecoverReplaysEverything(backend: Backend, settings: Settings, raw: seq<Message>)
    requires settings.thinking && settings.strategy == Recover && HasUser(raw)
    ensures Replayed(PrepareRequest(backend, settings, raw).outgoing)
    ensures PrepareRequest(backend, settings, raw).missing == 0
  {
    var pre := PreRepair(settings, raw);
    var namespace := CacheNamespace(settings, pre);
    NormalizedKeepsUser(NoStore, raw, None, Policy(false, settings.thinking));
    var start := MessagesForRepair(settings, pre);
    if RecoveryBoundary(pre).Active? {
      CutKeepsUser(pre, LastNotice(pre));
    } else {
      assert NormalRole(pre[LastUser(pre)].role) == User;
    }
    NormalizedKeepsUser(backend, start, Some(namespace), RepairPolicy(settings));
    LoopEndsComplete(FirstPass(backend, settings, raw), namespace, settings);
    ContractIffNothingMissing(backend, settings, raw);
  }

  /** The hypothesis is needed: without a user message recovery gives up and forwards the gap. */
  lemma NoUserLeavesAGap(env: Env, settings: Settings)
    requires settings.thinking && settings.strategy == Recover
    ensures
      var call := ToolCall(Given("c"), None, None, None);
      var raw := [Message(Assistant, Some(""), None, None, None, [call], None)];
      var prepared := PrepareRequest(Backed(env, Table(map[], 0)), settings, raw);
      !HasUser(raw) && prepared.missing == 1 && !Replayed(prepared.outgoing)
  {
    hide NoticeText, RecoverySystem, CutAt, FirstPass, Replayed, HasNotice, CacheNamespace;
    var call := ToolCall(Given("c"), None, None, None);
    var raw := Message(Assistant, Some(""), None, None, None, [call], None);
    GapInFirstPass(env, settings, raw);
    var backend := Backed(env, Table(map[], 0));
    var first := FirstPass(backend, settings, [raw]);
    EmptyIsNoNotice(first.history.messages[0]);
    RecoveryProgress(first.history.messages, first.history.missing);
    ContractIffNothingMissing(backend, settings, [raw]);
  }

  lemma GapInFirstPass(env: Env, settings: Settings, raw: Message)
    requires settings.thinking && settings.strategy == Recover
    requires raw.role == Assistant && raw.content == Some("") && raw.toolCalls != [] && raw.reasoning.None?
    ensures var first := FirstPass(Backed(env, Table(map[], 0)), settings, [raw]).history;
      && first.missing == [0] && |first.messages| == 1
      && first.messages[0].role == Assistant && first.messages[0].content == Some("")
  {
    hide NoticeText, RecoverySystem, CutAt, NormalizeAll, NormalizeOne, CacheNamespace, HasNotice;
    var backend := Backed(env, Table(map[], 0));
    var pre := PreRepair(settings, [raw]);
    NormalizeSingle(NoStore, raw, None, Policy(false, true));
    AssistantStays(raw);
    EmptyIsNoNotice(pre[0]);
    assert MessagesForRepair(settings, pre) == pre == [pre[0]];
    NormalizeSingle(backend, pre[0], Some(CacheNamespace(settings, pre)), RepairPolicy(settings));
    NothingIsFound(env, pre[0], CacheNamespace(settings, pre));
  }

  /** The pass that computes keys leaves such a turn as it is. */
  lemma AssistantStays(raw: Message)
    requires raw.role == Assistant && raw.content == Some("") && raw.toolCalls != [] && raw.reasoning.None?
    ensures var m := NormalizeOne(NoStore, raw, None, Policy(false, true), []).message;
      m.role == Assistant && m.content == Some("") && m.toolCalls != [] && m.reasoning.None?
  {
  }

  /** An empty table restores nothing. */
  lemma NothingIsFound(env: Env, raw: Message, namespace: Namespace)
    requires raw.role == Assistant && raw.content == Some("") && raw.toolCalls != [] && raw.reasoning.None?
    ensures var one := NormalizeOne(Backed(env, Table(map[], 0)), raw, Some(namespace), Policy(true, true), []);
      one.outcome == Missing && one.message.role == Assistant && one.message.content == Some("")
  {
    hide MessageKeys, ConversationScope, BackfillOps, ApplyAll;
  }

  lemma NormalizeSingle(backend: Backend, raw: Message, namespace: Option<Namespace>, policy: Policy)
    ensures var one := NormalizeOne(backend, raw, namespace, policy, []);
      NormalizeAll(backend, [raw], namespace, policy)
      == History([one.message], if one.outcome == Patched then 1 else 0, if one.outcome == Missing then [0] else [],
                 one.backend)
  {
    assert [raw][..0] == [];
  }

  lemma EmptyIsNoNotice(message: Message)
    requires message.content == Some("")
    ensures !HasNotice(message)
  {
    assert |NoticeText()| > 0;
  }

  // ----- The strict gate -----

  datatype Decision = Forward(prepared: Prepared) | Conflict(missingReasoning: nat)

  /** In strict mode a request with missing reasoning is answered with status 409. */
  function StrictGate(settings: Settings, prepared: Prepared): Decision {
    if settings.strategy == Reject && prepared.missing > 0 then Conflict(prepared.missing) else Forward(prepared)
  }

  /** Strict mode forwards exactly the requests that meet the contract. */
  lemma StrictForwardsIffReplayed(backend: Backend, settings: Settings, raw: seq<Message>)
    requires settings.thinking && settings.strategy == Reject
    ensures var prepared := PrepareRequest(backend, settings, raw);
      StrictGate(settings, prepared).Forward? <==> Replayed(prepared.outgoing)
  {
    ContractIffNothingMissing(backend, settings, raw);
  }
}
