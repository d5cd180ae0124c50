/** Whole conversations over a store that other requests use at the same time: the conversation's recordings
    and lookups are runs of single locked steps, and anybody's steps may come in between. */
module InterleavedSession {
  import opened Messages
  import opened Keys
  import opened ReasoningStore
  import opened Normalize
  import opened Recovery
  import opened Prepare
  import opened Recording
  import opened Provenance
  import opened Session
  import Thinking

  // ----- Schedules -----

  /** A run in which `who[i]` makes step `i`; maintenance is nobody's. */
  ghost predicate Scheduled(env: Env, states: seq<Shared>, who: seq<Option<nat>>) {
    && states != [] && |who| == |states| - 1
    && states[0] == Shared(Table(map[], 0), {}, map[])
    && forall i | 0 <= i < |who| :: TakenBy(env, states[i], states[i + 1], who[i])
  }

  ghost predicate TakenBy(env: Env, s: Shared, t: Shared, actor: Option<nat>) {
    if actor.None? then Maintenance(env, s, t) else StepOf(env, s, t, actor.value)
  }

  lemma ScheduledIsRun(env: Env, states: seq<Shared>, who: seq<Option<nat>>)
    requires Scheduled(env, states, who)
    ensures Run(env, states)
  {
    hide StepOf, Maintenance;
    forall i | 0 <= i < |states| - 1
      ensures Provenance.Step(env, states[i], states[i + 1])
    {
      assert TakenBy(env, states[i], states[i + 1], who[i]);
    }
  }

  /** Nobody else's step changes what a request is doing. */
  lemma OthersLeaveTask(env: Env, s: Shared, t: Shared, actor: Option<nat>, pid: nat)
    requires TakenBy(env, s, t, actor) && actor != Some(pid)
    ensures TaskOf(t, pid) == TaskOf(s, pid)
  {
  }

  // ----- One key -----

  /** Whoever has the key still to write will write this reasoning. */
  ghost predicate WrittenOnlyAs(states: seq<Shared>, key: Key, reasoning: string) {
    forall m: nat, pid | m < |states| && pid in states[m].tasks :: WritesOnlyAs(states[m].tasks[pid], key, reasoning)
  }

  ghost predicate WritesOnlyAs(task: Task, key: Key, reasoning: string) {
    task.Storing? && key in task.todo ==> task.reasoning == reasoning
  }

  lemma StepKeepsExact(env: Env, s: Shared, t: Shared, actor: Option<nat>, key: Key, reasoning: string)
    requires TakenBy(env, s, t, actor)
    requires forall pid | pid in s.tasks :: WritesOnlyAs(s.tasks[pid], key, reasoning)
    requires key in s.table.rows ==> s.table.rows[key].reasoning == reasoning
    ensures key in t.table.rows ==> t.table.rows[key].reasoning == reasoning
  {
    hide PruneRows;
    if actor.None? {
      PruneOnlyRemoves(env, s.table.rows, env.clock(s.table.ticks));
    } else if PutStep(env, s, t, actor.value) {
      var task := TaskOf(s, actor.value);
      assert actor.value in s.tasks && task.todo[0] in task.todo;
      PruneOnlyRemoves(env, s.table.rows[task.todo[0] := Row(task.reasoning, env.clock(s.table.ticks))],
                       env.clock(s.table.ticks + 1));
    }
  }

  /** Whenever the row is there, it is exact. */
  lemma {:induction false} ExactIfThere(env: Env, states: seq<Shared>, who: seq<Option<nat>>, key: Key,
                                        reasoning: string, m: nat)
    requires Scheduled(env, states, who) && WrittenOnlyAs(states, key, reasoning) && m < |states|
    ensures key in states[m].table.rows ==> states[m].table.rows[key].reasoning == reasoning
  {
    hide TakenBy, WritesOnlyAs;
    if m > 0 {
      ExactIfThere(env, states, who, key, reasoning, m - 1);
      assert TakenBy(env, states[m - 1], states[m - 1 + 1], who[m - 1]);
      StepKeepsExact(env, states[m - 1], states[m], who[m - 1], key, reasoning);
    }
  }

  /** The step writes the key. */
  ghost predicate PutsKey(env: Env, s: Shared, t: Shared, actor: Option<nat>, key: Key) {
    actor.Some? && PutStep(env, s, t, actor.value) && TaskOf(s, actor.value).todo[0] == key
  }

  /** The row is there after it is written, and is neither evicted nor cleared. */
  ghost predicate Kept(env: Env, states: seq<Shared>, who: seq<Option<nat>>, key: Key)
    requires |who| == |states| - 1
  {
    forall m: nat | m < |who| :: KeptBy(env, states[m], states[m + 1], who[m], key)
  }

  ghost predicate KeptBy(env: Env, s: Shared, t: Shared, actor: Option<nat>, key: Key) {
    key in s.table.rows || PutsKey(env, s, t, actor, key) ==> key in t.table.rows
  }

  /** Without limits a row is kept until somebody clears the store. */
  lemma KeptWithoutLimits(env: Env, s: Shared, t: Shared, actor: Option<nat>, key: Key)
    requires NoEviction(env) && TakenBy(env, s, t, actor)
    requires actor.None? ==> t == s.(table := Apply(env, s.table, Prune))
    ensures KeptBy(env, s, t, actor, key)
  {
    hide PruneRows, NoEviction;
    PruneOnlyRemoves(env, s.table.rows, env.clock(s.table.ticks));
    if actor.Some? && PutStep(env, s, t, actor.value) {
      var task := TaskOf(s, actor.value);
      PruneOnlyRemoves(env, s.table.rows[task.todo[0] := Row(task.reasoning, env.clock(s.table.ticks))],
                       env.clock(s.table.ticks + 1));
    }
  }

  lemma {:induction false} StaysThere(env: Env, states: seq<Shared>, who: seq<Option<nat>>, key: Key, i: nat, m: nat)
    requires |who| == |states| - 1 && Kept(env, states, who, key)
    requires i <= m < |states| && key in states[i].table.rows
    ensures key in states[m].table.rows
    decreases m - i
  {
    hide KeptBy;
    if i < m {
      StaysThere(env, states, who, key, i, m - 1);
      assert KeptBy(env, states[m - 1], states[m - 1 + 1], who[m - 1], key);
      KeptOnce(env, states[m - 1], states[m], who[m - 1], key);
    }
  }

  lemma KeptOnce(env: Env, s: Shared, t: Shared, actor: Option<nat>, key: Key)
    requires KeptBy(env, s, t, actor, key)
    ensures key in s.table.rows ==> key in t.table.rows
    ensures PutsKey(env, s, t, actor, key) ==> key in t.table.rows
  {
    hide PutsKey;
  }

  // ----- One recording -----

  /** Request `pid` records a message in steps `b` to `e`, with others in between. */
  ghost predicate Records(env: Env, states: seq<Shared>, who: seq<Option<nat>>, pid: nat, b: nat, e: nat,
                          namespace: Namespace, message: Message, context: seq<Message>)
    requires |who| == |states| - 1
  {
    && b < e < |states| && who[b] == Some(pid)
    && StoreBegins(states[b], states[b + 1], pid, namespace, message, context, context)
    && (forall m | b < m < e && who[m] == Some(pid) :: PutStep(env, states[m], states[m + 1], pid))
    && TaskOf(states[e], pid) == Storing(namespace, message.reasoning.value, [])
  }

  /** The key has been written or is still to be written. */
  ghost predicate OnItsWay(s: Shared, pid: nat, key: Key) {
    var task := TaskOf(s, pid);
    task.Storing? && (key in task.todo || key in s.table.rows)
  }

  lemma OnItsWayStep(env: Env, s: Shared, t: Shared, actor: Option<nat>, pid: nat, key: Key)
    requires TakenBy(env, s, t, actor) && OnItsWay(s, pid, key) && KeptBy(env, s, t, actor, key)
    requires actor == Some(pid) ==> PutStep(env, s, t, pid)
    ensures OnItsWay(t, pid, key)
  {
    KeptOnce(env, s, t, actor, key);
    if actor == Some(pid) {
      hide Apply;
      var todo := TaskOf(s, pid).todo;
      assert todo == [todo[0]] + todo[1..];
    } else {
      OthersLeaveTask(env, s, t, actor, pid);
    }
  }

  lemma {:induction false} RecordingProgress(env: Env, states: seq<Shared>, who: seq<Option<nat>>, pid: nat, b: nat,
                                             e: nat, namespace: Namespace, message: Message, context: seq<Message>,
                                             key: Key, m: nat)
    requires Scheduled(env, states, who) && Records(env, states, who, pid, b, e, namespace, message, context)
    requires Kept(env, states, who, key) && b < m <= e
    requires key in MessageKeys(message, ConversationScope(context, Some(namespace)), Some(namespace), context)
    ensures OnItsWay(states[m], pid, key)
  {
    hide TakenBy, KeptBy, PutStep, MessageKeys;
    if m > b + 1 {
      RecordingProgress(env, states, who, pid, b, e, namespace, message, context, key, m - 1);
      assert TakenBy(env, states[m - 1], states[m - 1 + 1], who[m - 1]);
      assert KeptBy(env, states[m - 1], states[m - 1 + 1], who[m - 1], key);
      OnItsWayStep(env, states[m - 1], states[m], who[m - 1], pid, key);
    }
  }

  /** After the recording every key of the message is there. */
  lemma RecordedIsThere(env: Env, states: seq<Shared>, who: seq<Option<nat>>, pid: nat, b: nat, e: nat,
                        namespace: Namespace, message: Message, context: seq<Message>, key: Key, m: nat)
    requires Scheduled(env, states, who) && Records(env, states, who, pid, b, e, namespace, message, context)
    requires Kept(env, states, who, key) && e <= m < |states|
    requires key in MessageKeys(message, ConversationScope(context, Some(namespace)), Some(namespace), context)
    ensures key in states[m].table.rows
  {
    hide MessageKeys, TakenBy, Kept;
    RecordingProgress(env, states, who, pid, b, e, namespace, message, context, key, e);
    StaysThere(env, states, who, key, e, m);
  }

  // ----- One lookup -----

  /** Request `pid` looks a message up in steps `b` to `h`, with others in between, and gets this answer. */
  ghost predicate LooksUp(states: seq<Shared>, who: seq<Option<nat>>, pid: nat, b: nat, h: nat, namespace: Namespace,
                          message: Message, prior: seq<Message>, answer: Option<string>)
    requires |who| == |states| - 1
  {
    && b < h < |states| && who[b] == Some(pid)
    && LookupBegins(states[b], states[b + 1], pid, namespace, message, prior)
    && (forall m | b < m < h && who[m] == Some(pid) :: GetStep(states[m], states[m + 1], pid))
    && TaskOf(states[h], pid) == Answer(namespace, message, prior, answer)
  }

  /** Either no key has been tried yet, or the first one has been found. */
  ghost predicate FirstOrFound(s: Shared, pid: nat, namespace: Namespace, message: Message, prior: seq<Message>,
                               reasoning: string)
  {
    || TaskOf(s, pid) == Looking(namespace, message, prior,
         MessageKeys(message, ConversationScope(prior, Some(namespace)), Some(namespace), prior))
    || TaskOf(s, pid) == Found(namespace, message, prior, reasoning)
  }

  lemma LookupStep(env: Env, s: Shared, t: Shared, actor: Option<nat>, pid: nat, namespace: Namespace,
                   message: Message, prior: seq<Message>, reasoning: string)
    requires TakenBy(env, s, t, actor) && (actor == Some(pid) ==> GetStep(s, t, pid))
    requires FirstOrFound(s, pid, namespace, message, prior, reasoning)
    requires var key := Scoped(ConversationScope(prior, Some(namespace)), MessageSignature(message));
      key in s.table.rows && s.table.rows[key].reasoning == reasoning
    ensures FirstOrFound(t, pid, namespace, message, prior, reasoning)
  {
    if actor != Some(pid) {
      OthersLeaveTask(env, s, t, actor, pid);
    } else {
      hide TakenBy, MessageKeys, ConversationScope, MessageSignature;
    }
  }

  /** A lookup whose first key is there all the time, with one reasoning, answers with that reasoning. */
  lemma {:induction false} LookupProgress(env: Env, states: seq<Shared>, who: seq<Option<nat>>, pid: nat, b: nat,
                                          h: nat, namespace: Namespace, message: Message, prior: seq<Message>,
                                          answer: Option<string>, reasoning: string, m: nat)
    requires Scheduled(env, states, who)
    requires LooksUp(states, who, pid, b, h, namespace, message, prior, answer) && b < m <= h
    requires var key := Scoped(ConversationScope(prior, Some(namespace)), MessageSignature(message));
      forall i | b < i < h :: key in states[i].table.rows && states[i].table.rows[key].reasoning == reasoning
    ensures FirstOrFound(states[m], pid, namespace, message, prior, reasoning)
  {
    hide TakenBy, GetStep, MessageKeys, ConversationScope, MessageSignature;
    if m > b + 1 {
      LookupProgress(env, states, who, pid, b, h, namespace, message, prior, answer, reasoning, m - 1);
      assert TakenBy(env, states[m - 1], states[m - 1 + 1], who[m - 1]);
      LookupStep(env, states[m - 1], states[m], who[m - 1], pid, namespace, message, prior, reasoning);
    }
  }

  /** A recorded row answers every later lookup that tries its key first, whoever comes in between. */
  lemma RecordedIsFound(env: Env, states: seq<Shared>, who: seq<Option<nat>>, pid: nat, b: nat, h: nat,
                        namespace: Namespace, message: Message, prior: seq<Message>, answer: Option<string>,
                        reasoning: string, from: nat)
    requires Scheduled(env, states, who) && from <= b
    requires LooksUp(states, who, pid, b, h, namespace, message, prior, answer)
    requires var key := Scoped(ConversationScope(prior, Some(namespace)), MessageSignature(message));
      && WrittenOnlyAs(states, key, reasoning) && Kept(env, states, who, key)
      && key in states[from].table.rows
    ensures answer == Some(reasoning)
  {
    var key := Scoped(ConversationScope(prior, Some(namespace)), MessageSignature(message));
    hide TakenBy, GetStep, MessageKeys, ConversationScope, MessageSignature, WrittenOnlyAs, Kept;
    forall i | b < i < h
      ensures key in states[i].table.rows && states[i].table.rows[key].reasoning == reasoning
    {
      StaysThere(env, states, who, key, from, i);
      ExactIfThere(env, states, who, key, reasoning, i);
    }
    LookupProgress(env, states, who, pid, b, h, namespace, message, prior, answer, reasoning, h);
  }

  // ----- A pass that is told its answers -----

  datatype Told = Told(message: Message, missing: bool)

  /** What the normaliser makes of one message when the lookup gives this answer. */
  function OneTold(answer: Option<string>, raw: Message, prior: seq<Message>): Told {
    var message := Shape(raw);
    if message.role != Assistant || message.reasoning.Some? || !NeedsReasoning(message, prior) then
      Told(FilterFields(message), false)
    else if answer.None? then Told(FilterFields(message), true)
    else Told(FilterFields(message.(reasoning := answer)), false)
  }

  /** The sequential normaliser is told the answers that its store gives. */
  lemma SequentialIsTold(backend: Backend, raw: Message, namespace: Option<Namespace>, prior: seq<Message>)
    ensures var one, told := NormalizeOne(backend, raw, namespace, Policy(true, true), prior),
                             OneTold(BackendLookup(backend, Shape(raw), namespace, prior), raw, prior);
      one.message == told.message && (one.outcome == Missing <==> told.missing)
  {
    hide Shape, FilterFields, NeedsReasoning, Backfilled;
  }

  function AllTold(answers: seq<Option<string>>, raw: seq<Message>): (r: seq<Told>)
    requires |answers| == |raw|
    ensures |r| == |raw|
  {
    if raw == [] then [] else
    var n := |raw| - 1;
    var before := AllTold(answers[..n], raw[..n]);
    before + [OneTold(answers[n], raw[n], MessagesOf(before))]
  }

  function MessagesOf(told: seq<Told>): (r: seq<Message>)
    ensures |r| == |told| && forall i | 0 <= i < |r| :: r[i] == told[i].message
  {
    seq(|told|, i requires 0 <= i < |told| => told[i].message)
  }

  lemma ToldIsPlain(answer: Option<string>, raw: Message, prior: seq<Message>)
    ensures CanonicalScopeMessage(OneTold(answer, raw, prior).message) == Plain(raw)
    ensures OneTold(answer, raw, prior).message.role == NormalRole(raw.role)
  {
    PlainIsCanonical(raw);
  }

  lemma {:induction false} CanonicalOfTold(answers: seq<Option<string>>, raw: seq<Message>)
    requires |answers| == |raw|
    ensures Canonical(MessagesOf(AllTold(answers, raw))) == PlainAll(raw)
  {
    hide Plain, CanonicalScopeMessage, OneTold;
    if raw != [] {
      var n := |raw| - 1;
      CanonicalOfTold(answers[..n], raw[..n]);
      ToldIsPlain(answers[n], raw[n], MessagesOf(AllTold(answers[..n], raw[..n])));
    }
  }

  // ----- The conversation -----

  /** Where the steps of a recording begin and end, and who makes them. */
  datatype Span = Span(pid: nat, begin: nat, end: nat)

  function OwnKey(settings: Settings, raw: seq<Message>, response: Message): Key {
    Scoped(ConversationScope(PreRepair(settings, raw), Some(SessionNamespace(settings, raw))),
           MessageSignature(response))
  }

  ghost predicate TurnRecorded(env: Env, states: seq<Shared>, who: seq<Option<nat>>, settings: Settings,
                               raw: seq<Message>, turn: Turn, span: Span)
    requires |who| == |states| - 1
  {
    && GoodTurn(turn)
    && Records(env, states, who, span.pid, span.begin, span.end, SessionNamespace(settings, raw), turn.response,
               PreRepair(settings, raw))
    && WrittenOnlyAs(states, OwnKey(settings, raw, turn.response), turn.response.reasoning.value)
    && Kept(env, states, who, OwnKey(settings, raw, turn.response))
  }

  /** The responses of a conversation are recorded at some time, each after its own history; nobody writes
      another reasoning under a response's own key, and its row is not lost. */
  ghost predicate InterleavedConversation(env: Env, states: seq<Shared>, who: seq<Option<nat>>, settings: Settings,
                                          first: seq<Message>, turns: seq<Turn>, spans: seq<Span>)
  {
    && Scheduled(env, states, who)
    && (forall m | m in first :: m.role != Assistant)
    && |spans| == |turns|
    && forall q | 0 <= q < |turns| ::
         TurnRecorded(env, states, who, settings, HistoryAfter(first, turns[..q]), turns[q], spans[q])
  }

  /** Message `p` of the request is looked up when it needs reasoning and does not bring it, after all earlier
      responses were recorded; the answers are what the lookups get. */
  ghost predicate InterleavedPass(states: seq<Shared>, who: seq<Option<nat>>, pid: nat, settings: Settings,
                                  raw: seq<Message>, answers: seq<Option<string>>, from: nat)
    requires |who| == |states| - 1
  {
    && |answers| == |raw|
    && forall p: nat | p < |raw| :: Asked(states, who, pid, settings, raw, answers, from, p)
  }

  ghost predicate Asked(states: seq<Shared>, who: seq<Option<nat>>, pid: nat, settings: Settings,
                        raw: seq<Message>, answers: seq<Option<string>>, from: nat, p: nat)
    requires |who| == |states| - 1 && |answers| == |raw| && p < |raw|
  {
    var pre := PreRepair(settings, raw);
    var prior := MessagesOf(AllTold(answers[..p], pre[..p]));
    var message := Shape(pre[p]);
    message.role == Assistant && message.reasoning.None? && NeedsReasoning(message, prior) ==>
      exists b: nat, h: nat | from <= b ::
        LooksUp(states, who, pid, b, h, SessionNamespace(settings, raw), message, prior, answers[p])
  }

  lemma {:induction false} HistoryIsWellFormed(first: seq<Message>, turns: seq<Turn>)
    requires forall m | m in first :: m.role != Assistant
    requires forall t | t in turns :: GoodTurn(t)
    ensures WellFormed(HistoryAfter(first, turns), TruthAfter(first, turns))
  {
    hide FaithfulEcho, GoodTurn;
    if turns != [] {
      var n := |turns| - 1;
      HistoryIsWellFormed(first, turns[..n]);
      assert turns[n] in turns;
      ExtendedIsWellFormed(HistoryAfter(first, turns[..n]), TruthAfter(first, turns[..n]), turns[n]);
    }
  }

  /** Every assistant message of a history is the echo of some turn: its key is that turn's own key, and its
      reasoning the one that was recorded. */
  lemma {:induction false} PositionOrigin(settings: Settings, first: seq<Message>, turns: seq<Turn>, p: nat)
    returns (q: nat)
    requires forall m | m in first :: m.role != Assistant
    requires forall t | t in turns :: GoodTurn(t)
    requires p < |HistoryAfter(first, turns)| && HistoryAfter(first, turns)[p].role == Assistant
    ensures q < |turns|
    ensures PositionKey(settings, HistoryAfter(first, turns), p)
         == OwnKey(settings, HistoryAfter(first, turns[..q]), turns[q].response)
    ensures TruthAfter(first, turns)[p] == turns[q].response.reasoning
  {
    hide FaithfulEcho, GoodTurn, PositionKey, MessageSignature, ConversationScope, PreRepair, SessionNamespace;
    assert p < |first| ==> first[p] in first;
    if turns != [] {
      var n := |turns| - 1;
      var raw, turn := HistoryAfter(first, turns[..n]), turns[n];
      assert turn in turns;
      HistoryIsWellFormed(first, turns[..n]);
      ExtendedIsWellFormed(raw, TruthAfter(first, turns[..n]), turn);
      EchoReasoning(turn);
      if p < |raw| {
        q := PositionOrigin(settings, first, turns[..n], p);
        PositionKeyIsStable(settings, raw, [turn.echo] + turn.added, p);
        assert turns[..n][..q] == turns[..q];
      } else {
        q := n;
        EchoKeyIsResponseKey(settings, raw, turn);
      }
    }
  }

  /** The key that a lookup tries first is the position's own key, whatever was answered before. */
  lemma FirstKeyIsPositionKey(settings: Settings, raw: seq<Message>, truth: Truth, answers: seq<Option<string>>, p: nat)
    requires WellFormed(raw, truth) && p < |raw| && raw[p].role == Assistant && |answers| == |raw|
    ensures var pre := PreRepair(settings, raw); var prior := MessagesOf(AllTold(answers[..p], pre[..p]));
      Scoped(ConversationScope(prior, Some(SessionNamespace(settings, raw))), MessageSignature(Shape(pre[p])))
      == PositionKey(settings, raw, p)
  {
    hide Plain, AllTold, CanonicalScopeMessage, MessageSignature, SessionNamespace, FaithfulEcho;
    var pre := PreRepair(settings, raw);
    var prior := MessagesOf(AllTold(answers[..p], pre[..p]));
    CanonicalOfTold(answers[..p], pre[..p]);
    forall j: nat | j < p
      ensures Canonical(prior)[j] == Canonical(pre[..p])[j]
    {
      PreIsSteady(settings, raw, truth, j);
    }
    assert Canonical(prior) == Canonical(pre[..p]);
  }

  /** The answer that a position of the conversation gets is the recorded reasoning. */
  lemma AnswerIsExact(env: Env, states: seq<Shared>, who: seq<Option<nat>>, settings: Settings, first: seq<Message>,
                      turns: seq<Turn>, spans: seq<Span>, k: nat, pid: nat, answers: seq<Option<string>>, from: nat,
                      p: nat)
    requires InterleavedConversation(env, states, who, settings, first, turns, spans) && k <= |turns|
    requires forall q | 0 <= q < k :: spans[q].end <= from
    requires var raw := HistoryAfter(first, turns[..k]);
      && InterleavedPass(states, who, pid, settings, raw, answers, from)
      && p < |raw| && raw[p].role == Assistant
    ensures var raw := HistoryAfter(first, turns[..k]); var pre := PreRepair(settings, raw);
      var message, prior := Shape(pre[p]), MessagesOf(AllTold(answers[..p], pre[..p]));
      message.role == Assistant && message.reasoning.None? && NeedsReasoning(message, prior) ==>
        answers[p] == TruthAfter(first, turns[..k])[p]
  {
    hide FaithfulEcho, GoodTurn, PositionKey, MessageSignature, ConversationScope, PreRepair, SessionNamespace, AllTold,
      NeedsReasoning, Shape, LooksUp, Records, WrittenOnlyAs, Kept, Scheduled, MessageKeys;
    var raw := HistoryAfter(first, turns[..k]);
    var pre := PreRepair(settings, raw);
    var message, prior := Shape(pre[p]), MessagesOf(AllTold(answers[..p], pre[..p]));
    assert |who| == |states| - 1 && forall t | t in turns :: GoodTurn(t) by {
      ConversationFacts(env, states, who, settings, first, turns, spans);
    }
    assert forall t | t in turns[..k] :: t in turns;
    HistoryIsWellFormed(first, turns[..k]);
    var q := PositionOrigin(settings, first, turns[..k], p);
    FirstKeyIsPositionKey(settings, raw, TruthAfter(first, turns[..k]), answers, p);
    assert turns[..k][..q] == turns[..q] && turns[..k][q] == turns[q];
    if message.role == Assistant && message.reasoning.None? && NeedsReasoning(message, prior) {
      assert Asked(states, who, pid, settings, raw, answers, from, p);
      var b: nat, h: nat :| from <= b
        && LooksUp(states, who, pid, b, h, SessionNamespace(settings, raw), message, prior, answers[p]);
      var before, turn, span := HistoryAfter(first, turns[..q]), turns[q], spans[q];
      assert TurnRecorded(env, states, who, settings, before, turn, span);
      FirstMessageKey(turn.response, ConversationScope(PreRepair(settings, before),
                                                       Some(SessionNamespace(settings, before))),
                      Some(SessionNamespace(settings, before)), PreRepair(settings, before));
      SpanFits(states, who, pid, b, h, SessionNamespace(settings, raw), message, prior, answers[p]);
      RecordedIsThere(env, states, who, span.pid, span.begin, span.end, SessionNamespace(settings, before),
                      turn.response,
                      PreRepair(settings, before), OwnKey(settings, before, turn.response), from);
      EchoReasoning(turn);
      RecordedIsFound(env, states, who, pid, b, h, SessionNamespace(settings, raw), message, prior, answers[p],
                      turn.response.reasoning.value, from);
    }
  }

  lemma SpanFits(states: seq<Shared>, who: seq<Option<nat>>, pid: nat, b: nat, h: nat, namespace: Namespace,
                 message: Message, prior: seq<Message>, answer: Option<string>)
    requires |who| == |states| - 1 && LooksUp(states, who, pid, b, h, namespace, message, prior, answer)
    ensures b < |states|
  {
  }

  lemma ConversationFacts(env: Env, states: seq<Shared>, who: seq<Option<nat>>, settings: Settings,
                          first: seq<Message>, turns: seq<Turn>, spans: seq<Span>)
    requires InterleavedConversation(env, states, who, settings, first, turns, spans)
    ensures |spans| == |turns| && (forall m | m in first :: m.role != Assistant)
    ensures |who| == |states| - 1 && forall t | t in turns :: GoodTurn(t)
  {
    hide GoodTurn;
    forall t | t in turns
      ensures GoodTurn(t)
    {
      var q :| 0 <= q < |turns| && turns[q] == t;
      assert TurnRecorded(env, states, who, settings, HistoryAfter(first, turns[..q]), turns[q], spans[q]);
    }
  }

  /** One message that is told the truth when it asks. */
  lemma ToldTheTruth(answer: Option<string>, raw: Message, prior: seq<Message>, truth: Option<string>)
    requires raw.role == Assistant && truth.Some? && (raw.reasoning == None || raw.reasoning == truth)
    requires Shape(raw).reasoning.None? && NeedsReasoning(Shape(raw), prior) ==> answer == truth
    ensures var told := OneTold(answer, raw, prior);
      && !told.missing
      && (NeedsReasoning(told.message, prior) ==> told.message.reasoning == truth)
  {
    hide NormalContent, FollowsTool;
  }

  lemma OthersAreNotMissing(answer: Option<string>, raw: Message, prior: seq<Message>)
    requires NormalRole(raw.role) != Assistant
    ensures var told := OneTold(answer, raw, prior); !told.missing && told.message.role != Assistant
  {
    hide NormalContent;
  }

  /** Whole-run repair over a shared store, step by step: in every schedule of the locked steps of any number of
      requests, at every request of a conversation, nothing is missing and every turn that needs reasoning
      gets exactly what was recorded for it. */
  lemma EveryInterleavedTurnIsReplayed(env: Env, states: seq<Shared>, who: seq<Option<nat>>, settings: Settings,
                                       first: seq<Message>, turns: seq<Turn>, spans: seq<Span>, k: nat, pid: nat,
                                       answers: seq<Option<string>>, from: nat, p: nat)
    requires settings.thinking
    requires InterleavedConversation(env, states, who, settings, first, turns, spans) && k <= |turns|
    requires forall q | 0 <= q < k :: spans[q].end <= from
    requires InterleavedPass(states, who, pid, settings, HistoryAfter(first, turns[..k]), answers, from)
    requires p < |HistoryAfter(first, turns[..k])|
    ensures var raw, truth := HistoryAfter(first, turns[..k]), TruthAfter(first, turns[..k]);
      var told := AllTold(answers[..p], PreRepair(settings, raw)[..p]);
      var one := OneTold(answers[p], PreRepair(settings, raw)[p], MessagesOf(told));
      && StartOf(settings, raw) == PreRepair(settings, raw)
      && !one.missing
      && (one.message.role == Assistant && NeedsReasoning(one.message, MessagesOf(told)) ==>
            one.message.reasoning == truth[p])
  {
    hide GoodTurn, PreRepair, AllTold, NeedsReasoning, Shape, OneTold, NoticeText, Plain, InterleavedConversation,
      Asked, WellFormed, MessagesForRepair, HistoryAfter;
    ConversationFacts(env, states, who, settings, first, turns, spans);
    assert forall t | t in turns[..k] :: t in turns;
    HistoryIsWellFormed(first, turns[..k]);
    var raw, truth := HistoryAfter(first, turns[..k]), TruthAfter(first, turns[..k]);
    NoNoticeInSession(settings, raw, truth);
    PreAt(settings, raw, p);
    var prior := MessagesOf(AllTold(answers[..p], PreRepair(settings, raw)[..p]));
    if raw[p].role == Assistant {
      EchoFacts(raw, truth, p);
      AnswerIsExact(env, states, who, settings, first, turns, spans, k, pid, answers, from, p);
      ShapeOf(PreRepair(settings, raw)[p]);
      ToldTheTruth(answers[p], PreRepair(settings, raw)[p], prior, truth[p]);
    } else {
      OthersAreNotMissing(answers[p], PreRepair(settings, raw)[p], prior);
    }
  }

  lemma EchoFacts(raw: seq<Message>, truth: Truth, p: nat)
    requires WellFormed(raw, truth) && p < |raw| && raw[p].role == Assistant
    ensures truth[p].Some? && (raw[p].reasoning == None || raw[p].reasoning == truth[p])
  {
    hide Thinking.Strip, NoticeText;
  }

  lemma ShapeOf(raw: Message)
    ensures Shape(raw).role == NormalRole(raw.role) && Shape(raw).reasoning == raw.reasoning
  {
    hide NormalContent;
  }
}
