/** Whole conversations: every echoed assistant turn is replayed with the reasoning recorded for it. */
module Session {
  import opened Messages
  import opened Keys
  import opened ReasoningStore
  import opened Normalize
  import opened Recovery
  import opened Prepare
  import opened Recording
  import opened ReplayContract
  import KeyStability
  import Thinking

  /** The reasoning that belongs to each message of a history; `None` for non-assistant messages. */
  type Truth = seq<Option<string>>

  /** An assistant message that the client sends back, with or without its reasoning, and with or without
      printed thinking blocks: what stripping makes of its content is left alone by another strip and does
      not begin with the notice. */
  ghost predicate FaithfulEcho(message: Message, reasoning: Option<string>) {
    && message.role == Assistant
    && reasoning.Some?
    && (var content := Thinking.Strip(message.content.GetOr(""));
        Thinking.Strip(content) == content && !IsPrefix(NoticeText(), content))
    && (message.reasoning == None || message.reasoning == reasoning)
  }

  ghost predicate WellFormed(raw: seq<Message>, truth: Truth) {
    && |raw| == |truth|
    && forall p | 0 <= p < |raw| :: raw[p].role == Assistant ==> FaithfulEcho(raw[p], truth[p])
  }

  /** The first key under which message `p` of a history is looked up. */
  function PositionKey(settings: Settings, raw: seq<Message>, p: nat): Key
    requires p < |raw|
  {
    var pre := PreRepair(settings, raw);
    Scoped(ConversationScope(pre[..p], Some(SessionNamespace(settings, raw))), MessageSignature(Shape(pre[p])))
  }

  /** The store knows the reasoning of every assistant message of the history. */
  ghost predicate Covered(rows: map<Key, Row>, settings: Settings, raw: seq<Message>, truth: Truth)
    requires |raw| == |truth|
  {
    forall p: nat | p < |raw| && raw[p].role == Assistant ::
      var key := PositionKey(settings, raw, p);
      key in rows && Some(rows[key].reasoning) == truth[p]
  }

  // ----- One request -----

  lemma PreAt(settings: Settings, raw: seq<Message>, p: nat)
    requires p < |raw|
    ensures var m := PreRepair(settings, raw)[p];
      && m.role == NormalRole(raw[p].role)
      && m.content == Plain(raw[p]).content
      && m.toolCalls == Plain(raw[p]).toolCalls
      && (settings.thinking && raw[p].role == Assistant ==> m.reasoning == raw[p].reasoning)
  {
    KeyStability.PlainAt(NoStore, raw, None, Policy(false, settings.thinking), p);
    KeyStability.NormalizedAt(NoStore, raw, None, Policy(false, settings.thinking), p);
  }

  /** A faithful echo is a fixed point of normalisation, as far as keys go. */
  lemma EchoIsSteady(settings: Settings, raw: seq<Message>, truth: Truth, p: nat)
    requires WellFormed(raw, truth) && p < |raw| && raw[p].role == Assistant
    ensures var m := PreRepair(settings, raw)[p];
      && !HasNotice(m)
      && m.content == Some(Thinking.Strip(raw[p].content.GetOr("")))
      && Shape(m).content == m.content && Shape(m).toolCalls == m.toolCalls
  {
    hide NoticeText;
    PreAt(settings, raw, p);
    NormalizeToolCallsIdempotent(raw[p].toolCalls);
  }

  lemma NoNoticeInSession(settings: Settings, raw: seq<Message>, truth: Truth)
    requires WellFormed(raw, truth)
    ensures RecoveryBoundary(PreRepair(settings, raw)).NoBoundary?
    ensures MessagesForRepair(settings, PreRepair(settings, raw)) == PreRepair(settings, raw)
  {
    hide NoticeText, RecoverySystem;
    var pre := PreRepair(settings, raw);
    var i := LastNotice(pre);
    if i >= 0 {
      PreAt(settings, raw, i);
      if raw[i].role == Assistant {
        EchoIsSteady(settings, raw, truth, i);
      }
    }
  }

  /** Backfilling writes portable keys only: during a repairing pass scoped rows can be evicted, but
      none is added or changed. */
  ghost predicate ScopedRowsOnlyLeave(a: map<Key, Row>, b: map<Key, Row>) {
    forall k: Key | k.Scoped? && k in b :: k in a && b[k] == a[k]
  }

  lemma BackfillIsPortable(message: Message, reasoning: string, namespace: Option<Namespace>, prior: seq<Message>)
    ensures var ops := BackfillOps(message, reasoning, namespace, prior);
      forall op | op in ops :: op.Put? && op.key.Portable?
  {
    var portable := PortableKeys(message, namespace, prior);
    forall op | op in BackfillOps(message, reasoning, namespace, prior)
      ensures op.Put? && op.key.Portable?
    {
      assert op.key in UniqueKeys(portable);
      assert op.key in portable;
    }
  }

  lemma BackfillKeepsScopedRows(env: Env, table: Table, message: Message, reasoning: string,
                                namespace: Option<Namespace>, prior: seq<Message>)
    ensures ScopedRowsOnlyLeave(table.rows, ApplyAll(env, table,
                                                     BackfillOps(message, reasoning, namespace, prior)).rows)
  {
    hide BackfillOps, ApplyAll;
    var ops := BackfillOps(message, reasoning, namespace, prior);
    BackfillIsPortable(message, reasoning, namespace, prior);
    forall k: Key | k.Scoped? && k in ApplyAll(env, table, ops).rows
      ensures k in table.rows && ApplyAll(env, table, ops).rows[k] == table.rows[k]
    {
      PutsKeepOthers(env, table, ops, k);
    }
  }

  lemma FirstKeyHits(table: Table, message: Message, namespace: Namespace, prior: seq<Message>, reasoning: string)
    requires var key := Scoped(ConversationScope(prior, Some(namespace)), MessageSignature(message));
      key in table.rows && table.rows[key].reasoning == reasoning
    ensures Lookup(table, message, ConversationScope(prior, Some(namespace)), Some(namespace), prior) == Some(reasoning)
  {
    FirstHitIsFirst(table.rows, MessageKeys(message, ConversationScope(prior, Some(namespace)), Some(namespace),
                                            prior), 0);
  }

  /** An assistant message of a repairing pass. */
  lemma OneIsPatched(env: Env, table: Table, raw: Message, namespace: Namespace, prior: seq<Message>, reasoning: string)
    requires raw.role == Assistant
    requires var key := Scoped(ConversationScope(prior, Some(namespace)), MessageSignature(Shape(raw)));
      key in table.rows && table.rows[key].reasoning == reasoning
    ensures var one := NormalizeOne(Backed(env, table), raw, Some(namespace), Policy(true, true), prior);
      && one.outcome != Missing
      && one.backend.Backed? && one.backend.env == env
      && ScopedRowsOnlyLeave(table.rows, one.backend.table.rows)
      && (NeedsReasoning(one.message, prior) ==>
            one.message.reasoning == if raw.reasoning.Some? then raw.reasoning else Some(reasoning))
  {
    hide Lookup, BackfillOps, ScopedRowsOnlyLeave;
    BackfillKeepsScopedRows(env, table, Shape(raw), reasoning, Some(namespace), prior);
    FirstKeyHits(table, Shape(raw), namespace, prior, reasoning);
    ScopedRowsReflexive(table.rows);
  }

  lemma ScopedRowsReflexive(rows: map<Key, Row>)
    ensures ScopedRowsOnlyLeave(rows, rows)
  {
  }

  /** The outcome of a repairing pass over a covered history: nothing missing, and every turn that
      needs reasoning has its own. */
  ghost predicate PassOk(env: Env, rows: map<Key, Row>, h: History, truth: Truth) {
    && h.missing == []
    && h.backend.Backed? && h.backend.env == env && ScopedRowsOnlyLeave(rows, h.backend.table.rows)
    && |h.messages| <= |truth|
    && forall p: nat | p < |h.messages| && h.messages[p].role == Assistant
         && NeedsReasoning(h.messages[p], h.messages[..p]) :: h.messages[p].reasoning == truth[p]
  }

  /** Lookup in a partly repaired history uses the position's own key. */
  lemma LookupKeyIsPositionKey(backend: Backend, settings: Settings, raw: seq<Message>, truth: Truth, p: nat)
    requires WellFormed(raw, truth) && p < |raw| && raw[p].role == Assistant
    ensures var pre, namespace := PreRepair(settings, raw), SessionNamespace(settings, raw);
      var prior := NormalizeAll(backend, pre[..p], Some(namespace), Policy(true, true)).messages;
      Scoped(ConversationScope(prior, Some(namespace)), MessageSignature(Shape(pre[p])))
          == PositionKey(settings, raw, p)
  {
    var pre, namespace := PreRepair(settings, raw), SessionNamespace(settings, raw);
    var prior := NormalizeAll(backend, pre[..p], Some(namespace), Policy(true, true)).messages;
    forall j: nat | j < p
      ensures CanonicalScopeMessage(prior[j]) == CanonicalScopeMessage(pre[j])
    {
      KeyStability.PlainAt(backend, pre[..p], Some(namespace), Policy(true, true), j);
      PreIsSteady(settings, raw, truth, j);
    }
    assert Canonical(prior) == Canonical(pre[..p]);
  }

  /** Normalising an already normalised session message again changes no canonical field. */
  lemma PreIsSteady(settings: Settings, raw: seq<Message>, truth: Truth, j: nat)
    requires WellFormed(raw, truth) && j < |raw|
    ensures Plain(PreRepair(settings, raw)[j]) == CanonicalScopeMessage(PreRepair(settings, raw)[j])
  {
    hide NoticeText;
    KeyStability.PlainAt(NoStore, raw, None, Policy(false, settings.thinking), j);
    var m := PreRepair(settings, raw)[j];
    assert CanonicalScopeMessage(m) == Plain(raw[j]);
    NormalizeToolCallsIdempotent(raw[j].toolCalls);
    PlainIsCanonical(raw[j]);
    if raw[j].role == Assistant {
      EchoIsSteady(settings, raw, truth, j);
    }
  }

  lemma EmptyPassIsOk(env: Env, table: Table, truth: Truth)
    ensures PassOk(env, table.rows, History([], 0, [], Backed(env, table)), truth)
  {
  }

  lemma PassOkAppend(env: Env, rows: map<Key, Row>, before: History, after: History, one: Normalized, truth: Truth)
    requires PassOk(env, rows, before, truth) && |before.messages| < |truth|
    requires one.outcome != Missing
    requires one.backend.Backed? && one.backend.env == env && ScopedRowsOnlyLeave(rows, one.backend.table.rows)
    requires one.message.role == Assistant && NeedsReasoning(one.message, before.messages) ==>
      one.message.reasoning == truth[|before.messages|]
    requires after.messages == before.messages + [one.message]
    requires after.missing == before.missing && after.backend == one.backend
    ensures PassOk(env, rows, after, truth)
  {
    hide ScopedRowsOnlyLeave;
    forall p: nat | p < |after.messages| && after.messages[p].role == Assistant
        && NeedsReasoning(after.messages[p], after.messages[..p])
      ensures after.messages[p].reasoning == truth[p]
    {
      assert after.messages[..p] == before.messages[..p];
      assert before.messages[..|before.messages|] == before.messages;
    }
  }

  // ----- Eviction -----

  /** The table after the repairing pass over the first `n` messages. */
  function PassTable(env: Env, table: Table, settings: Settings, raw: seq<Message>, n: nat): Table
    requires n <= |raw|
  {
    var pre := PreRepair(settings, raw);
    var backend := NormalizeAll(Backed(env, table), pre[..n], Some(SessionNamespace(settings, raw)),
                                Policy(true, true)).backend;
    if backend.Backed? then backend.table else table
  }

  /** The request's own backfills evict no row of its conversation before that row is needed, and none at all
      by the end of the pass. */
  ghost predicate SparedInPass(env: Env, table: Table, settings: Settings, raw: seq<Message>) {
    forall p: nat, n: nat | p < |raw| && p <= n <= |raw| && raw[p].role == Assistant ::
      SparedUntil(env, table, settings, raw, p, n)
  }

  ghost predicate SparedUntil(env: Env, table: Table, settings: Settings, raw: seq<Message>, p: nat, n: nat)
    requires p < |raw| && n <= |raw|
  {
    PositionKey(settings, raw, p) in table.rows ==>
      PositionKey(settings, raw, p) in PassTable(env, table, settings, raw, n).rows
  }

  lemma OneKeepsRows(env: Env, table: Table, raw: Message, namespace: Option<Namespace>, policy: Policy,
                     prior: seq<Message>)
    requires NoEviction(env)
    ensures var backend := NormalizeOne(Backed(env, table), raw, namespace, policy, prior).backend;
      backend.Backed? && backend.env == env && table.rows.Keys <= backend.table.rows.Keys
  {
    var message := Shape(raw);
    var restored := BackendLookup(Backed(env, table), message, namespace, prior);
    if restored.Some? {
      hide BackfillOps, ApplyAll;
      BackfillIsPortable(message, restored.value, namespace, prior);
      var ops := BackfillOps(message, restored.value, namespace, prior);
      forall k | k in table.rows
        ensures k in ApplyAll(env, table, ops).rows
      {
        RowIsLastWrite(env, table, ops, k);
      }
    }
  }

  lemma {:induction false} PassKeepsRows(env: Env, table: Table, raw: seq<Message>, namespace: Option<Namespace>,
                                         policy: Policy)
    requires NoEviction(env)
    ensures var backend := NormalizeAll(Backed(env, table), raw, namespace, policy).backend;
      backend.Backed? && backend.env == env && table.rows.Keys <= backend.table.rows.Keys
  {
    hide NormalizeOne, NoEviction;
    if raw != [] {
      var n := |raw| - 1;
      PassKeepsRows(env, table, raw[..n], namespace, policy);
      var before := NormalizeAll(Backed(env, table), raw[..n], namespace, policy);
      OneKeepsRows(env, before.backend.table, raw[n], namespace, policy, before.messages);
    }
  }

  /** Without limits nothing is evicted. */
  lemma SparedWithoutLimits(env: Env, table: Table, settings: Settings, raw: seq<Message>)
    requires NoEviction(env)
    ensures SparedInPass(env, table, settings, raw)
  {
    forall p: nat, n: nat | p < |raw| && p <= n <= |raw| && raw[p].role == Assistant
      ensures SparedUntil(env, table, settings, raw, p, n)
    {
      PassKeepsRows(env, table, PreRepair(settings, raw)[..n], Some(SessionNamespace(settings, raw)),
                    Policy(true, true));
    }
  }

  // ----- The pass -----

  lemma {:induction false} PassOverPrefix(env: Env, table: Table, settings: Settings, raw: seq<Message>, truth: Truth,
                                          n: nat)
    requires settings.thinking && n <= |raw| && SparedInPass(env, table, settings, raw)
    requires WellFormed(raw, truth) && Covered(table.rows, settings, raw, truth)
    ensures PassOk(env, table.rows,
      NormalizeAll(Backed(env, table), PreRepair(settings, raw)[..n], Some(SessionNamespace(settings, raw)),
                   Policy(true, true)),
      truth)
  {
    hide NormalizeOne, PassOk, ScopedRowsOnlyLeave, Covered, FaithfulEcho, SparedInPass;
    var pre, namespace := PreRepair(settings, raw), SessionNamespace(settings, raw);
    if n == 0 {
      EmptyPassIsOk(env, table, truth);
      assert pre[..0] == [];
    } else {
      var p := n - 1;
      PassOverPrefix(env, table, settings, raw, truth, p);
      NormalizeAllStep(Backed(env, table), pre, Some(namespace), Policy(true, true), p);
      var before := NormalizeAll(Backed(env, table), pre[..p], Some(namespace), Policy(true, true));
      StepIsOk(env, table, settings, raw, truth, p, before);
      var one := NormalizeOne(before.backend, pre[p], Some(namespace), Policy(true, true), before.messages);
      PassOkAppend(env, table.rows, before, NormalizeAll(Backed(env, table), pre[..n], Some(namespace),
                                                         Policy(true, true)),
                   one, truth);
    }
  }

  lemma OthersAreKept(backend: Backend, raw: Message, namespace: Option<Namespace>, prior: seq<Message>)
    requires NormalRole(raw.role) != Assistant
    ensures var one := NormalizeOne(backend, raw, namespace, Policy(true, true), prior);
      one.outcome == Kept && one.backend == backend && one.message.role != Assistant
  {
    hide NormalContent;
  }

  lemma StepIsOk(env: Env, table: Table, settings: Settings, raw: seq<Message>, truth: Truth, p: nat, before: History)
    requires settings.thinking && p < |raw| && SparedInPass(env, table, settings, raw)
    requires WellFormed(raw, truth) && Covered(table.rows, settings, raw, truth)
    requires before == NormalizeAll(Backed(env, table), PreRepair(settings, raw)[..p],
                                    Some(SessionNamespace(settings, raw)), Policy(true, true))
    requires PassOk(env, table.rows, before, truth)
    ensures var one := NormalizeOne(before.backend, PreRepair(settings, raw)[p], Some(SessionNamespace(settings, raw)),
                                    Policy(true, true), before.messages);
      && one.outcome != Missing
      && one.backend.Backed? && one.backend.env == env && ScopedRowsOnlyLeave(table.rows, one.backend.table.rows)
      && (one.message.role == Assistant && NeedsReasoning(one.message, before.messages) ==>
            one.message.reasoning == truth[p])
  {
    hide NormalizeOne, MessageSignature, ConversationScope, NoticeText, PreRepair, SessionNamespace, Plain,
      NeedsReasoning;
    PreAt(settings, raw, p);
    if raw[p].role != Assistant {
      OthersAreKept(before.backend, PreRepair(settings, raw)[p], Some(SessionNamespace(settings, raw)),
                    before.messages);
    } else {
      assert SparedUntil(env, table, settings, raw, p, p);
      LookupKeyIsPositionKey(Backed(env, table), settings, raw, truth, p);
      OneIsPatched(env, before.backend.table, PreRepair(settings, raw)[p], SessionNamespace(settings, raw),
                   before.messages, truth[p].value);
    }
  }

  // ----- Requests and responses -----

  /** Nothing is missing, the recovery loop does not run, every turn that needs reasoning goes out
      with exactly its own, and the response will be recorded under one context: the history that
      the next request extends. */
  ghost predicate RequestOk(env: Env, table: Table, settings: Settings, raw: seq<Message>, truth: Truth)
    requires |raw| == |truth|
  {
    var prepared := PrepareRequest(Backed(env, table), settings, raw);
    var pre := PreRepair(settings, raw);
    && prepared.missing == 0 && prepared.recovered == 0 && prepared.dropped == 0 && prepared.notice == ""
    && Repaired(Backed(env, table), settings, raw) == FirstPass(Backed(env, table), settings, raw)
    && |prepared.outgoing| == |raw|
    && (forall p: nat | p < |raw| && NeedsReplay(prepared.outgoing, p) :: prepared.outgoing[p].reasoning == truth[p])
    && prepared.contexts == [RecordingContext(ConversationScope(pre, Some(prepared.namespace)), pre)]
  }

  lemma CoveredRequest(env: Env, table: Table, settings: Settings, raw: seq<Message>, truth: Truth)
    requires settings.thinking && SparedInPass(env, table, settings, raw)
    requires WellFormed(raw, truth) && Covered(table.rows, settings, raw, truth)
    ensures RequestOk(env, table, settings, raw, truth)
    ensures var end := Repaired(Backed(env, table), settings, raw);
      && end.history.backend.Backed? && end.history.backend.env == env
      && ScopedRowsOnlyLeave(table.rows, end.history.backend.table.rows)
      && end.history.backend.table == PassTable(env, table, settings, raw, |raw|)
  {
    hide SparedInPass, NormalizeOne, ScopedRowsOnlyLeave, Covered, FaithfulEcho, NoticeText, RecoverySystem,
      NeedsReplay;
    var pre, namespace := PreRepair(settings, raw), SessionNamespace(settings, raw);
    assert pre[..|raw|] == pre;
    PassOverPrefix(env, table, settings, raw, truth, |raw|);
    NoNoticeInSession(settings, raw, truth);
    var end := FirstPass(Backed(env, table), settings, raw);
    assert Repaired(Backed(env, table), settings, raw) == end;
    SameScope(env, table, settings, raw, truth);
    ContextPair(RecordingContext(ConversationScope(pre, Some(namespace)), pre),
                RecordingContext(ConversationScope(end.history.messages, Some(namespace)), end.history.messages));
    OutgoingTruth(env, table, settings, raw, truth);
  }

  /** The repaired history has the scope of the history that keys were computed from. */
  lemma SameScope(env: Env, table: Table, settings: Settings, raw: seq<Message>, truth: Truth)
    requires WellFormed(raw, truth)
    ensures var pre, namespace := PreRepair(settings, raw), SessionNamespace(settings, raw);
      ConversationScope(FirstPass(Backed(env, table), settings, raw).history.messages, Some(namespace))
      == ConversationScope(pre, Some(namespace))
  {
    hide NoticeText, RecoverySystem, NormalizeOne;
    var pre, namespace := PreRepair(settings, raw), SessionNamespace(settings, raw);
    NoNoticeInSession(settings, raw, truth);
    var messages := FirstPass(Backed(env, table), settings, raw).history.messages;
    KeyStability.CanonicalOfNormalized(Backed(env, table), pre, Some(namespace), RepairPolicy(settings));
    forall j: nat | j < |raw|
      ensures Canonical(messages)[j] == Canonical(pre)[j]
    {
      PreIsSteady(settings, raw, truth, j);
    }
  }

  lemma OutgoingTruth(env: Env, table: Table, settings: Settings, raw: seq<Message>, truth: Truth)
    requires settings.thinking && WellFormed(raw, truth)
    requires PassOk(env, table.rows, FirstPass(Backed(env, table), settings, raw).history, truth)
    ensures var out := StripNotices(FirstPass(Backed(env, table), settings, raw).history.messages);
      forall p: nat | p < |out| && NeedsReplay(out, p) :: out[p].reasoning == truth[p]
  {
    hide NoticeText, RecoverySystem, NormalizeOne, ScopedRowsOnlyLeave;
    var messages := FirstPass(Backed(env, table), settings, raw).history.messages;
    var out := StripNotices(messages);
    forall p: nat | p < |out| && NeedsReplay(out, p)
      ensures out[p].reasoning == truth[p]
    {
      NeedsReplayOfStripped(messages, p);
      FollowsToolMeaning(messages[..p]);
    }
  }

  /** A response, how the client echoes it, and the messages it then appends. */
  datatype Turn = Turn(response: Message, echo: Message, added: seq<Message>)

  ghost predicate GoodTurn(turn: Turn) {
    && turn.response.role == Assistant
    && FaithfulEcho(turn.echo, turn.response.reasoning)
    && Thinking.Strip(turn.echo.content.GetOr("")) == turn.response.content.GetOr("")
    && NormalizeToolCalls(turn.echo.toolCalls) == NormalizeToolCalls(turn.response.toolCalls)
    && forall m | m in turn.added :: NormalRole(m.role) != Assistant && NormalRole(m.role) != System
  }

  function Extend(raw: seq<Message>, turn: Turn): seq<Message> {
    raw + ([turn.echo] + turn.added)
  }

  function ExtendTruth(truth: Truth, turn: Turn): (r: Truth)
    ensures |r| == |truth| + 1 + |turn.added|
  {
    truth + ([turn.response.reasoning] + seq(|turn.added|, _ => None))
  }

  /** The store after a request with history `raw` was prepared and its response was recorded. */
  function AfterRequest(env: Env, table: Table, settings: Settings, raw: seq<Message>, response: Message): Table {
    var prepared := PrepareRequest(Backed(env, table), settings, raw);
    var end := Repaired(Backed(env, table), settings, raw).history.backend;
    if end.NoStore? then table else
    ApplyAll(env, end.table, RecordOps(PrefixContent([response], prepared.notice), prepared.namespace,
                                       prepared.contexts))
  }

  lemma PreRepairConcat(settings: Settings, raw: seq<Message>, more: seq<Message>)
    ensures PreRepair(settings, raw + more)[..|raw|] == PreRepair(settings, raw)
  {
    assert (raw + more)[..|raw|] == raw;
    if more != [] {
      KeyStability.NormalizedAt(NoStore, raw + more, None, Policy(false, settings.thinking), |raw|);
    } else {
      assert raw + more == raw;
    }
  }

  lemma {:induction false} NoSystemMessages(messages: seq<Message>)
    requires forall m | m in messages :: m.role != System
    ensures SystemMessages(messages) == []
  {
    if messages != [] {
      NoSystemMessages(messages[1..]);
    }
  }

  /** Without new system messages the namespace stays. */
  lemma NamespaceIsStable(settings: Settings, raw: seq<Message>, more: seq<Message>)
    requires forall m | m in more :: NormalRole(m.role) != System
    ensures SessionNamespace(settings, raw + more) == SessionNamespace(settings, raw)
  {
    hide PreRepair, Plain, SystemMessages;
    var long := PreRepair(settings, raw + more);
    PreRepairConcat(settings, raw, more);
    forall m | m in long[|raw|..]
      ensures m.role != System
    {
      var j :| 0 <= j < |more| && long[|raw|..][j] == m;
      PreAt(settings, raw + more, |raw| + j);
      assert (raw + more)[|raw| + j] == more[j];
    }
    NoSystemMessages(long[|raw|..]);
    assert long == PreRepair(settings, raw) + long[|raw|..];
    SystemMessagesConcat(PreRepair(settings, raw), long[|raw|..]);
  }

  /** A position's key does not depend on what is appended later. */
  lemma PositionKeyIsStable(settings: Settings, raw: seq<Message>, more: seq<Message>, p: nat)
    requires p < |raw| && forall m | m in more :: NormalRole(m.role) != System
    ensures PositionKey(settings, raw + more, p) == PositionKey(settings, raw, p)
  {
    NamespaceIsStable(settings, raw, more);
    PreRepairConcat(settings, raw, more);
    var long, short := PreRepair(settings, raw + more), PreRepair(settings, raw);
    assert long[..p] == short[..p] && long[p] == short[p];
  }

  /** The key of a freshly echoed turn is the first key its response was recorded under. */
  lemma EchoKeyIsResponseKey(settings: Settings, raw: seq<Message>, turn: Turn)
    requires GoodTurn(turn)
    ensures PositionKey(settings, Extend(raw, turn), |raw|)
         == Scoped(ConversationScope(PreRepair(settings, raw), Some(SessionNamespace(settings, raw))),
                   MessageSignature(turn.response))
  {
    hide NoticeText, PreRepair, SessionNamespace, ConversationScope, Thinking.Strip;
    var more := [turn.echo] + turn.added;
    NamespaceIsStable(settings, raw, more);
    PreRepairConcat(settings, raw, more);
    PreAt(settings, raw + more, |raw|);
    assert (raw + more)[|raw|] == turn.echo;
    NormalizeToolCallsIdempotent(turn.echo.toolCalls);
  }

  /** Rows of earlier positions are not touched by recording a later response. */
  lemma EarlierKeyIsNotRecorded(settings: Settings, raw: seq<Message>, p: nat, response: Message)
    requires p < |raw|
    ensures var pre, namespace := PreRepair(settings, raw), Some(SessionNamespace(settings, raw));
      PositionKey(settings, raw, p) !in MessageKeys(response, ConversationScope(pre, namespace), namespace, pre)
  {
    var pre, namespace := PreRepair(settings, raw), Some(SessionNamespace(settings, raw));
    var keys := MessageKeys(response, ConversationScope(pre, namespace), namespace, pre);
    ScopesOfKeys(response, ConversationScope(pre, namespace), namespace, pre);
    hide MessageKeys, MessageSignature, PreRepair, SessionNamespace;
    forall k | k in keys
      ensures k != PositionKey(settings, raw, p)
    {
      assert |PositionKey(settings, raw, p).scope.messages| == p;
    }
  }

  lemma ScopesOfKeys(message: Message, scope: Scope, namespace: Option<Namespace>, prior: seq<Message>)
    ensures forall k | k in MessageKeys(message, scope, namespace, prior) :: k.Scoped? ==> k.scope == scope
  {
    hide Aliases;
  }

  lemma RecordOneContext(message: Message, namespace: Namespace, context: RecordingContext)
    ensures RecordOps([message], namespace, [context])
         == StoreOps(message, context.scope, Some(namespace), context.messages)
  {
    assert [message][..0] == [] && [context][..0] == [];
    assert RecordOps([], namespace, [context]) == [] && MessageOps(message, namespace, []) == [];
  }

  /** Recording the response evicts neither the new turn's own row nor, of the earlier rows, one that was
      still there. */
  ghost predicate SparedInRecording(env: Env, table: Table, settings: Settings, raw: seq<Message>, turn: Turn) {
    forall p: nat | p <= |raw| && Extend(raw, turn)[p].role == Assistant ::
      SparedByRecording(env, table, settings, raw, turn, p)
  }

  ghost predicate SparedByRecording(env: Env, table: Table, settings: Settings, raw: seq<Message>, turn: Turn, p: nat)
    requires p <= |raw|
  {
    p == |raw| || PositionKey(settings, raw, p) in PassTable(env, table, settings, raw, |raw|).rows ==>
      PositionKey(settings, Extend(raw, turn), p) in AfterRequest(env, table, settings, raw, turn.response).rows
  }

  /** Recording the response covers the history that the client sends next. */
  lemma RecordedTurnIsCovered(env: Env, table: Table, settings: Settings, raw: seq<Message>, truth: Truth, turn: Turn)
    requires settings.thinking && GoodTurn(turn)
    requires NoEviction(env) || (SparedInPass(env, table, settings, raw)
                                 && SparedInRecording(env, table, settings, raw, turn))
    requires WellFormed(raw, truth) && Covered(table.rows, settings, raw, truth)
    ensures WellFormed(Extend(raw, turn), ExtendTruth(truth, turn))
    ensures Covered(AfterRequest(env, table, settings, raw, turn.response).rows, settings,
                    Extend(raw, turn), ExtendTruth(truth, turn))
  {
    hide NoticeText, PositionKey, SessionNamespace, AfterRequest, FaithfulEcho, ExtendTruth, Extend, SparedInPass,
      SparedInRecording, NoEviction;
    ExtendedIsWellFormed(raw, truth, turn);
    var raw', truth' := Extend(raw, turn), ExtendTruth(truth, turn);
    var after := AfterRequest(env, table, settings, raw, turn.response);
    forall p: nat | p < |raw'| && raw'[p].role == Assistant
      ensures PositionKey(settings, raw', p) in after.rows
      ensures Some(after.rows[PositionKey(settings, raw', p)].reasoning) == truth'[p]
    {
      PositionIsCovered(env, table, settings, raw, truth, turn, p);
    }
  }

  lemma ExtendedIsWellFormed(raw: seq<Message>, truth: Truth, turn: Turn)
    requires GoodTurn(turn) && WellFormed(raw, truth)
    ensures WellFormed(Extend(raw, turn), ExtendTruth(truth, turn))
    ensures forall p | 0 <= p < |Extend(raw, turn)| && Extend(raw, turn)[p].role == Assistant :: p <= |raw|
  {
    hide FaithfulEcho, NormalizeToolCalls;
    forall p | 0 <= p < |Extend(raw, turn)| && Extend(raw, turn)[p].role == Assistant
      ensures p <= |raw| && FaithfulEcho(Extend(raw, turn)[p], ExtendTruth(truth, turn)[p])
    {
    }
  }

  lemma PositionIsCovered(env: Env, table: Table, settings: Settings, raw: seq<Message>, truth: Truth, turn: Turn,
                          p: nat)
    requires settings.thinking && GoodTurn(turn)
    requires NoEviction(env) || (SparedInPass(env, table, settings, raw)
                                 && SparedInRecording(env, table, settings, raw, turn))
    requires WellFormed(raw, truth) && Covered(table.rows, settings, raw, truth)
    requires p <= |raw| && Extend(raw, turn)[p].role == Assistant
    ensures var rows := AfterRequest(env, table, settings, raw, turn.response).rows;
      var key := PositionKey(settings, Extend(raw, turn), p);
      key in rows && Some(rows[key].reasoning) == ExtendTruth(truth, turn)[p]
  {
    hide NoticeText, RecoverySystem, PositionKey, PrepareRequest, Repaired, FaithfulEcho, StoreOps, MessageKeys,
      NoEviction, SparedInPass, PassTable, PreRepair, SessionNamespace, ConversationScope, MessageSignature, ApplyAll,
      ScopedRowsOnlyLeave;
    if NoEviction(env) {
      SparedWithoutLimits(env, table, settings, raw);
    }
    CoveredRequest(env, table, settings, raw, truth);
    var pre, namespace := PreRepair(settings, raw), SessionNamespace(settings, raw);
    var context := RecordingContext(ConversationScope(pre, Some(namespace)), pre);
    var prepared := PrepareRequest(Backed(env, table), settings, raw);
    PreparedNamespace(Backed(env, table), settings, raw);
    RecordOneContext(turn.response, namespace, context);
    var before := Repaired(Backed(env, table), settings, raw).history.backend.table;
    var ops := StoreOps(turn.response, context.scope, Some(namespace), pre);
    assert AfterRequest(env, table, settings, raw, turn.response) == ApplyAll(env, before, ops);
    assert turn.response.reasoning.Some? by { EchoReasoning(turn); }
    StoreOpsContents(turn.response, context.scope, Some(namespace), pre);
    var more := [turn.echo] + turn.added;
    assert forall m | m in more :: NormalRole(m.role) != System by { EchoReasoning(turn); }
    assert NoEviction(env) || SparedByRecording(env, table, settings, raw, turn, p);
    if p < |raw| {
      assert SparedUntil(env, table, settings, raw, p, |raw|) by { SparedAtEnd(env, table, settings, raw, p); }
      PositionKeyIsStable(settings, raw, more, p);
      EarlierKeyIsNotRecorded(settings, raw, p, turn.response);
      var key := PositionKey(settings, raw, p);
      PositionKeyIsScoped(settings, raw, p);
      PutsKeepOthers(env, before, ops, key);
      ScopedRowStays(table.rows, before.rows, key);
    } else {
      EchoKeyIsResponseKey(settings, raw, turn);
      FirstMessageKey(turn.response, context.scope, Some(namespace), pre);
      PutsAreFound(env, before, ops, PositionKey(settings, raw + more, p), turn.response.reasoning.value);
    }
  }

  lemma SparedAtEnd(env: Env, table: Table, settings: Settings, raw: seq<Message>, p: nat)
    requires SparedInPass(env, table, settings, raw) && p < |raw| && raw[p].role == Assistant
    ensures SparedUntil(env, table, settings, raw, p, |raw|)
  {
  }

  lemma ScopedRowStays(a: map<Key, Row>, b: map<Key, Row>, key: Key)
    requires ScopedRowsOnlyLeave(a, b) && key.Scoped? && key in b
    ensures key in a && b[key] == a[key]
  {
  }

  lemma FirstMessageKey(message: Message, scope: Scope, namespace: Option<Namespace>, prior: seq<Message>)
    ensures Scoped(scope, MessageSignature(message)) in MessageKeys(message, scope, namespace, prior)
  {
  }

  lemma PositionKeyIsScoped(settings: Settings, raw: seq<Message>, p: nat)
    requires p < |raw|
    ensures PositionKey(settings, raw, p).Scoped?
  {
  }

  lemma EchoReasoning(turn: Turn)
    requires GoodTurn(turn)
    ensures turn.response.reasoning.Some? && turn.echo.role == Assistant
    ensures forall m | m in [turn.echo] + turn.added :: NormalRole(m.role) != System
  {
  }

  lemma PreparedNamespace(backend: Backend, settings: Settings, raw: seq<Message>)
    ensures PrepareRequest(backend, settings, raw).namespace == SessionNamespace(settings, raw)
  {
  }

  // ----- Whole conversations -----

  function HistoryAfter(first: seq<Message>, turns: seq<Turn>): seq<Message> {
    if turns == [] then first
    else Extend(HistoryAfter(first, turns[..|turns| - 1]), turns[|turns| - 1])
  }

  function TruthAfter(first: seq<Message>, turns: seq<Turn>): (r: Truth)
    ensures |r| == |HistoryAfter(first, turns)|
  {
    if turns == [] then seq(|first|, _ => None)
    else ExtendTruth(TruthAfter(first, turns[..|turns| - 1]), turns[|turns| - 1])
  }

  /** Between two requests the store may change in any way that spares the conversation's own rows. */
  ghost predicate Spares(after: map<Key, Row>, next: map<Key, Row>, settings: Settings, raw: seq<Message>) {
    forall p: nat | p < |raw| ::
      var key := PositionKey(settings, raw, p);
      key in after ==> key in next && next[key].reasoning == after[key].reasoning
  }

  /** A conversation: it begins without assistant messages, every request appends to the last, and
      `tables[k]` is the store when request `k` arrives. The store may be shared. */
  ghost predicate Conversation(env: Env, settings: Settings, first: seq<Message>, turns: seq<Turn>,
                               tables: seq<Table>) {
    && (forall m | m in first :: m.role != Assistant)
    && (forall t | t in turns :: GoodTurn(t))
    && |tables| == |turns| + 1
    && forall k | 0 <= k < |turns| ::
         Spares(AfterRequest(env, tables[k], settings, HistoryAfter(first, turns[..k]), turns[k].response).rows,
                tables[k + 1].rows, settings, HistoryAfter(first, turns[..k + 1]))
  }

  /** With limits: the requests evict no row of the conversation while they are prepared and recorded. */
  ghost predicate Unevicted(env: Env, settings: Settings, first: seq<Message>, turns: seq<Turn>, tables: seq<Table>)
    requires |tables| == |turns| + 1
  {
    && (forall k | 0 <= k <= |turns| :: SparedInPass(env, tables[k], settings, HistoryAfter(first, turns[..k])))
    && forall k | 0 <= k < |turns| :: SparedInRecording(env, tables[k], settings, HistoryAfter(first, turns[..k]),
                                                        turns[k])
  }

  lemma SparedIsCovered(after: map<Key, Row>, next: map<Key, Row>, settings: Settings, raw: seq<Message>, truth: Truth)
    requires |raw| == |truth| && Spares(after, next, settings, raw) && Covered(after, settings, raw, truth)
    ensures Covered(next, settings, raw, truth)
  {
  }

  lemma {:induction false} ConversationIsCovered(env: Env, settings: Settings, first: seq<Message>, turns: seq<Turn>,
                                                 tables: seq<Table>, k: nat)
    requires settings.thinking && Conversation(env, settings, first, turns, tables) && k <= |turns|
    requires NoEviction(env) || Unevicted(env, settings, first, turns, tables)
    ensures WellFormed(HistoryAfter(first, turns[..k]), TruthAfter(first, turns[..k]))
    ensures Covered(tables[k].rows, settings, HistoryAfter(first, turns[..k]), TruthAfter(first, turns[..k]))
  {
    hide PositionKey, FaithfulEcho, AfterRequest, Spares, NoEviction, SparedInPass, SparedInRecording;
    if k > 0 {
      var before, turn := turns[..k - 1], turns[k - 1];
      ConversationIsCovered(env, settings, first, turns, tables, k - 1);
      assert turns[..k][..k - 1] == before;
      assert turn in turns && HistoryAfter(first, turns[..k]) == Extend(HistoryAfter(first, before), turn);
      RecordedTurnIsCovered(env, tables[k - 1], settings, HistoryAfter(first, before), TruthAfter(first, before), turn);
      SparedIsCovered(AfterRequest(env, tables[k - 1], settings, HistoryAfter(first, before), turn.response).rows,
                      tables[k].rows, settings, HistoryAfter(first, turns[..k]), TruthAfter(first, turns[..k]));
    } else {
      assert turns[..k] == [];
      FirstIsCovered(tables[0].rows, settings, first);
    }
  }

  lemma FirstIsCovered(rows: map<Key, Row>, settings: Settings, first: seq<Message>)
    requires forall m | m in first :: m.role != Assistant
    ensures WellFormed(first, TruthAfter(first, []))
    ensures Covered(rows, settings, first, TruthAfter(first, []))
  {
  }

  /** Whole-run repair: in every conversation, at every request, every assistant turn that needs
      reasoning is replayed with exactly what was recorded for it, and recovery never happens; without
      limits, and with limits as long as no row of the conversation is evicted. */
  lemma EveryTurnIsReplayed(env: Env, settings: Settings, first: seq<Message>, turns: seq<Turn>, tables: seq<Table>,
                            k: nat)
    requires settings.thinking && Conversation(env, settings, first, turns, tables) && k <= |turns|
    requires NoEviction(env) || Unevicted(env, settings, first, turns, tables)
    ensures RequestOk(env, tables[k], settings, HistoryAfter(first, turns[..k]), TruthAfter(first, turns[..k]))
  {
    hide NoEviction, SparedInPass, SparedInRecording;
    ConversationIsCovered(env, settings, first, turns, tables, k);
    if NoEviction(env) {
      SparedWithoutLimits(env, tables[k], settings, HistoryAfter(first, turns[..k]));
    }
    CoveredRequest(env, tables[k], settings, HistoryAfter(first, turns[..k]), TruthAfter(first, turns[..k]));
  }
}
