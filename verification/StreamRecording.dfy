/** Recording a stream in stages refines recording the whole message at once. */
module StreamRecording {
  import opened Messages
  import opened Keys
  import opened ReasoningStore
  import opened Prepare
  import opened Recording
  import opened Accumulator
  import opened CacheHistory
  import AccumulatorFold
  import Chunks

  // ----- The writes of a stream of one choice -----

  function VisitOrder(partials: Partials, j: int): seq<int> {
    if j in partials then [j] else []
  }

  /** One pass per recording context. */
  function StoreRounds(partials: Partials, stages: Stages, j: int, atEnd: bool, contexts: seq<RecordingContext>,
                       namespace: Namespace): Batch
  {
    if contexts == [] then Batch(stages, []) else
    var n := |contexts| - 1;
    var before := StoreRounds(partials, stages, j, atEnd, contexts[..n], namespace);
    var pass := StorePass(partials, before.stages, VisitOrder(partials, j), atEnd, contexts[n], namespace);
    Batch(pass.stages, before.ops + pass.ops)
  }

  datatype StreamState = StreamState(partials: Partials, stages: Stages, ops: seq<Op>)

  function Feed(s: StreamState, j: int, chunk: Chunks.Chunk, contexts: seq<RecordingContext>,
                namespace: Namespace): StreamState {
    var partials := IngestAll(s.partials, chunk.choices);
    var batch := StoreRounds(partials, s.stages, j, false, contexts, namespace);
    StreamState(partials, batch.stages, s.ops + batch.ops)
  }

  function Streamed(j: int, chunks: seq<Chunks.Chunk>, contexts: seq<RecordingContext>,
                    namespace: Namespace): StreamState {
    if chunks == [] then StreamState(map[], map[], [])
    else Feed(Streamed(j, chunks[..|chunks| - 1], contexts, namespace), j, chunks[|chunks| - 1], contexts, namespace)
  }

  /** All writes of the stream, the final pass at its end included. */
  function StreamOps(j: int, chunks: seq<Chunks.Chunk>, contexts: seq<RecordingContext>,
                     namespace: Namespace): seq<Op> {
    var s := Streamed(j, chunks, contexts, namespace);
    s.ops + StoreRounds(s.partials, s.stages, j, true, contexts, namespace).ops
  }

  function StreamedMessage(j: int, chunks: seq<Chunks.Chunk>): Message {
    AccumulatorFold.Assembled(Chunks.Entries(chunks), j)
  }

  /** Every entry belongs to choice `j`. */
  ghost predicate OneChoice(j: int, chunks: seq<Chunks.Chunk>) {
    forall e | e in Chunks.Entries(chunks) :: Chunks.IndexOf(e) == j
  }

  predicate FinishedBefore(j: int, chunks: seq<Chunks.Chunk>, n: nat)
    requires n <= |chunks|
  {
    PartialOf(IngestAll(map[], Chunks.Entries(chunks[..n])), j).finish != ""
  }

  ghost predicate DistinctScopes(contexts: seq<RecordingContext>) {
    forall a, b | 0 <= a < b < |contexts| :: contexts[a].scope != contexts[b].scope
  }

  predicate Recordable(p: Partial) {
    p.role == Assistant && p.reasoning.Some?
  }

  ghost predicate RanksAtMost(stages: Stages, j: int, contexts: seq<RecordingContext>, n: nat) {
    forall c | c in contexts :: Rank(stages, (j, c.scope)) <= n
  }

  ghost predicate AllFinal(stages: Stages, j: int, contexts: seq<RecordingContext>) {
    forall c | c in contexts :: Rank(stages, (j, c.scope)) == 2
  }

  ghost predicate EndsWith(ops: seq<Op>, tail: seq<Op>) {
    |tail| <= |ops| && ops[|ops| - |tail|..] == tail
  }

  lemma IngestAllConcat(partials: Partials, a: seq<Chunks.Choice>, b: seq<Chunks.Choice>)
    ensures IngestAll(partials, a + b) == IngestAll(IngestAll(partials, a), b)
  {
    if b == [] {
      assert a + b == a;
    } else {
      assert (a + b)[..|a + b| - 1] == a + b[..|b| - 1];
      IngestAllConcat(partials, a, b[..|b| - 1]);
    }
  }

  lemma {:induction false} StreamedPartials(j: int, chunks: seq<Chunks.Chunk>, contexts: seq<RecordingContext>,
                                            namespace: Namespace)
    ensures Streamed(j, chunks, contexts, namespace).partials == IngestAll(map[], Chunks.Entries(chunks))
  {
    if chunks != [] {
      var n := |chunks| - 1;
      StreamedPartials(j, chunks[..n], contexts, namespace);
      IngestAllConcat(map[], Chunks.Entries(chunks[..n]), chunks[n].choices);
    }
  }

  // ----- What one round does -----

  /** One pass over the single choice is one store decision for it. */
  lemma PassOfOne(partials: Partials, stages: Stages, j: int, atEnd: bool, context: RecordingContext,
                  namespace: Namespace)
    requires j in partials
    ensures StorePass(partials, stages, VisitOrder(partials, j), atEnd, context, namespace)
         == StoreIfReady(stages, j, partials[j], atEnd, context, namespace)
  {
    assert [j][..0] == [];
    var one := StoreIfReady(stages, j, partials[j], atEnd, context, namespace);
    assert [] + one.ops == one.ops;
  }

  lemma StoreOpsArePuts(message: Message, scope: Scope, namespace: Option<Namespace>, prior: seq<Message>)
    ensures OnlyPuts(StoreOps(message, scope, namespace, prior))
    ensures StoreOps(message, scope, namespace, prior) != [] <==> message.role == Assistant && message.reasoning.Some?
  {
  }

  /** A decision before the finish reaches at most the tool-call stage. */
  lemma EarlyDecision(stages: Stages, j: int, p: Partial, context: RecordingContext, namespace: Namespace)
    requires p.finish == ""
    ensures var batch := StoreIfReady(stages, j, p, false, context, namespace);
      && OnlyPuts(batch.ops)
      && (p.reasoning.None? ==> batch == Batch(stages, []))
      && forall key: (int, Scope) :: Rank(batch.stages, key) <= if Rank(stages, key) < 1 then 1 else Rank(stages, key)
  {
    hide StoreOps;
    StoreOpsArePuts(ToMessage(p), context.scope, Some(namespace), context.messages);
  }

  /** A decision at the finish writes the complete message, unless that has been done, and makes it final. */
  lemma FinalDecision(stages: Stages, j: int, p: Partial, atEnd: bool, context: RecordingContext, namespace: Namespace)
    requires Recordable(p) && (atEnd || p.finish != "") && Rank(stages, (j, context.scope)) <= 1
    ensures var batch := StoreIfReady(stages, j, p, atEnd, context, namespace);
      && batch.ops == StoreOps(ToMessage(p), context.scope, Some(namespace), context.messages)
      && batch.stages == stages[(j, context.scope) := FinalStage]
  {
    hide StoreOps;
    StoreOpsArePuts(ToMessage(p), context.scope, Some(namespace), context.messages);
  }

  /** A round before the finish: at most the tool-call stage is reached. */
  lemma {:induction false} EarlyRounds(partials: Partials, stages: Stages, j: int, contexts: seq<RecordingContext>,
                                       namespace: Namespace,
                                       all: seq<RecordingContext>)
    requires j in partials && partials[j].finish == ""
    requires RanksAtMost(stages, j, all, 1)
    ensures var batch := StoreRounds(partials, stages, j, false, contexts, namespace);
      && OnlyPuts(batch.ops) && RanksAtMost(batch.stages, j, all, 1)
      && (partials[j].reasoning.None? ==> batch == Batch(stages, []))
  {
    hide StoreIfReady, StorePass;
    if contexts != [] {
      var n := |contexts| - 1;
      EarlyRounds(partials, stages, j, contexts[..n], namespace, all);
      var before := StoreRounds(partials, stages, j, false, contexts[..n], namespace);
      PassOfOne(partials, before.stages, j, false, contexts[n], namespace);
      EarlyDecision(before.stages, j, partials[j], contexts[n], namespace);
    }
  }

  /** The final round stores the complete message under every context, in order. */
  lemma {:induction false} FinalRounds(partials: Partials, stages: Stages, j: int, atEnd: bool,
                                       contexts: seq<RecordingContext>,
                                       namespace: Namespace, n: nat)
    requires j in partials && Recordable(partials[j]) && (atEnd || partials[j].finish != "")
    requires RanksAtMost(stages, j, contexts, 1) && DistinctScopes(contexts) && n <= |contexts|
    ensures var batch := StoreRounds(partials, stages, j, atEnd, contexts[..n], namespace);
      && batch.ops == MessageOps(ToMessage(partials[j]), namespace, contexts[..n])
      && (forall i | 0 <= i < n :: Rank(batch.stages, (j, contexts[i].scope)) == 2)
      && (forall i | n <= i < |contexts| :: Rank(batch.stages, (j, contexts[i].scope)) <= 1)
  {
    hide StoreOps, StoreIfReady, StorePass, Recordable;
    if n == 0 {
      assert contexts[..0] == [];
    } else {
      FinalRounds(partials, stages, j, atEnd, contexts, namespace, n - 1);
      assert contexts[..n][..n - 1] == contexts[..n - 1];
      var before := StoreRounds(partials, stages, j, atEnd, contexts[..n - 1], namespace);
      PassOfOne(partials, before.stages, j, atEnd, contexts[n - 1], namespace);
      FinalDecision(before.stages, j, partials[j], atEnd, contexts[n - 1], namespace);
    }
  }

  /** After the final stage nothing is stored again. */
  lemma {:induction false} RoundsAfterFinal(partials: Partials, stages: Stages, j: int, atEnd: bool,
                                            contexts: seq<RecordingContext>,
                                            namespace: Namespace)
    requires j in partials && AllFinal(stages, j, contexts)
    ensures StoreRounds(partials, stages, j, atEnd, contexts, namespace) == Batch(stages, [])
  {
    if contexts != [] {
      var n := |contexts| - 1;
      RoundsAfterFinal(partials, stages, j, atEnd, contexts[..n], namespace);
      PassOfOne(partials, stages, j, atEnd, contexts[n], namespace);
      assert contexts[n] in contexts;
    }
  }

  /** Without reasoning nothing is stored. */
  lemma {:induction false} RoundsWithoutReasoning(partials: Partials, stages: Stages, j: int, atEnd: bool,
                                                  contexts: seq<RecordingContext>, namespace: Namespace)
    requires PartialOf(partials, j).reasoning.None?
    ensures StoreRounds(partials, stages, j, atEnd, contexts, namespace) == Batch(stages, [])
  {
    if contexts != [] {
      var n := |contexts| - 1;
      RoundsWithoutReasoning(partials, stages, j, atEnd, contexts[..n], namespace);
      if j in partials {
        PassOfOne(partials, stages, j, atEnd, contexts[n], namespace);
      }
    }
  }

  lemma DecisionIsPuts(stages: Stages, j: int, p: Partial, atEnd: bool, context: RecordingContext, namespace: Namespace)
    ensures OnlyPuts(StoreIfReady(stages, j, p, atEnd, context, namespace).ops)
  {
    hide StoreOps;
    StoreOpsArePuts(ToMessage(p), context.scope, Some(namespace), context.messages);
  }

  lemma {:induction false} RoundsArePuts(partials: Partials, stages: Stages, j: int, atEnd: bool,
                                         contexts: seq<RecordingContext>, namespace: Namespace)
    ensures OnlyPuts(StoreRounds(partials, stages, j, atEnd, contexts, namespace).ops)
  {
    hide StoreIfReady, StorePass;
    if contexts != [] {
      var n := |contexts| - 1;
      RoundsArePuts(partials, stages, j, atEnd, contexts[..n], namespace);
      var before := StoreRounds(partials, stages, j, atEnd, contexts[..n], namespace);
      if j in partials {
        PassOfOne(partials, before.stages, j, atEnd, contexts[n], namespace);
        DecisionIsPuts(before.stages, j, partials[j], atEnd, contexts[n], namespace);
      } else {
        NoPass(partials, before.stages, atEnd, contexts[n], namespace);
      }
    }
  }

  lemma NoPass(partials: Partials, stages: Stages, atEnd: bool, context: RecordingContext, namespace: Namespace)
    ensures StorePass(partials, stages, [], atEnd, context, namespace) == Batch(stages, [])
  {
  }

  lemma {:induction false} ReasoningStays(p: Partial, entries: seq<Chunks.Choice>)
    ensures p.reasoning.Some? ==> AccumulatorFold.Fold(p, entries).reasoning.Some?
  {
    hide MergeAll;
    if entries != [] {
      ReasoningStays(p, entries[..|entries| - 1]);
    }
  }

  // ----- The stream invariant -----

  ghost predicate StreamInvariant(s: StreamState, j: int, contexts: seq<RecordingContext>, namespace: Namespace) {
    var p := PartialOf(s.partials, j);
    && OnlyPuts(s.ops)
    && (p.reasoning.None? ==> s.ops == [] && s.stages == map[])
    && (p.finish == "" ==> RanksAtMost(s.stages, j, contexts, 1))
    && (p.finish != "" && Recordable(p) ==>
          AllFinal(s.stages, j, contexts) && EndsWith(s.ops, MessageOps(ToMessage(p), namespace, contexts)))
  }

  lemma EndsWithAppended(ops: seq<Op>, tail: seq<Op>)
    ensures EndsWith(ops + tail, tail)
  {
  }

  /** The entry that finishes the choice, or any entry before it. */
  lemma FeedOpen(s: StreamState, j: int, chunk: Chunks.Chunk, contexts: seq<RecordingContext>, namespace: Namespace)
    requires StreamInvariant(s, j, contexts, namespace) && DistinctScopes(contexts)
    requires PartialOf(s.partials, j).finish == ""
    ensures StreamInvariant(Feed(s, j, chunk, contexts, namespace), j, contexts, namespace)
  {
    hide StoreRounds, MessageOps, EndsWith;
    var partials := IngestAll(s.partials, chunk.choices);
    var p, batch := PartialOf(partials, j), StoreRounds(partials, s.stages, j, false, contexts, namespace);
    AccumulatorFold.ChoiceIsOwnFold(s.partials, chunk.choices, j);
    ReasoningStays(PartialOf(s.partials, j), Chunks.Own(chunk.choices, j));
    RoundsArePuts(partials, s.stages, j, false, contexts, namespace);
    if p.reasoning.None? {
      RoundsWithoutReasoning(partials, s.stages, j, false, contexts, namespace);
    } else if p.finish == "" {
      EarlyRounds(partials, s.stages, j, contexts, namespace, contexts);
    } else if Recordable(p) {
      FinalRounds(partials, s.stages, j, false, contexts, namespace, |contexts|);
      assert contexts[..|contexts|] == contexts;
      EndsWithAppended(s.ops, MessageOps(ToMessage(p), namespace, contexts));
    }
  }

  /** Chunks after the finish: nothing in them belongs to the choice. */
  lemma FeedClosed(s: StreamState, j: int, chunk: Chunks.Chunk, contexts: seq<RecordingContext>, namespace: Namespace)
    requires StreamInvariant(s, j, contexts, namespace)
    requires PartialOf(s.partials, j).finish != "" && Chunks.Own(chunk.choices, j) == []
    ensures StreamInvariant(Feed(s, j, chunk, contexts, namespace), j, contexts, namespace)
  {
    hide StoreRounds, MessageOps, EndsWith;
    var p, partials := PartialOf(s.partials, j), IngestAll(s.partials, chunk.choices);
    AccumulatorFold.ChoiceIsOwnFold(s.partials, chunk.choices, j);
    RoundsArePuts(partials, s.stages, j, false, contexts, namespace);
    if p.reasoning.None? {
      RoundsWithoutReasoning(partials, s.stages, j, false, contexts, namespace);
    } else if Recordable(p) {
      RoundsAfterFinal(partials, s.stages, j, false, contexts, namespace);
      assert s.ops + [] == s.ops;
    }
  }

  /** Nothing of the choice follows its finish. */
  ghost predicate QuietAfterFinish(j: int, chunks: seq<Chunks.Chunk>) {
    forall n: nat | n < |chunks| && FinishedBefore(j, chunks, n) :: Chunks.Own(chunks[n].choices, j) == []
  }

  lemma {:induction false} StreamKeepsInvariant(j: int, chunks: seq<Chunks.Chunk>, contexts: seq<RecordingContext>,
                                                namespace: Namespace)
    requires QuietAfterFinish(j, chunks) && DistinctScopes(contexts)
    ensures StreamInvariant(Streamed(j, chunks, contexts, namespace), j, contexts, namespace)
  {
    hide StreamInvariant, Feed, IngestAll;
    if chunks == [] {
      EmptyStream(j, contexts, namespace);
    } else {
      var n := |chunks| - 1;
      forall k: nat | k < n && FinishedBefore(j, chunks[..n], k)
        ensures Chunks.Own(chunks[..n][k].choices, j) == []
      {
        assert chunks[..n][..k] == chunks[..k];
        assert FinishedBefore(j, chunks, k);
      }
      StreamKeepsInvariant(j, chunks[..n], contexts, namespace);
      var s := Streamed(j, chunks[..n], contexts, namespace);
      StreamedPartials(j, chunks[..n], contexts, namespace);
      if PartialOf(s.partials, j).finish == "" {
        FeedOpen(s, j, chunks[n], contexts, namespace);
      } else {
        assert FinishedBefore(j, chunks, n);
        FeedClosed(s, j, chunks[n], contexts, namespace);
      }
    }
  }

  lemma EmptyStream(j: int, contexts: seq<RecordingContext>, namespace: Namespace)
    ensures StreamInvariant(StreamState(map[], map[], []), j, contexts, namespace)
  {
  }

  /** The writes of a stream: nothing without reasoning, and otherwise some early writes followed by
      exactly the writes that recording the complete message makes. */
  lemma StreamEndsWithMessage(j: int, chunks: seq<Chunks.Chunk>, contexts: seq<RecordingContext>, namespace: Namespace)
    requires QuietAfterFinish(j, chunks) && DistinctScopes(contexts)
    requires StreamedMessage(j, chunks).role == Assistant
    ensures var ops, m := StreamOps(j, chunks, contexts, namespace), StreamedMessage(j, chunks);
      && OnlyPuts(ops)
      && (m.reasoning.None? ==> ops == [])
      && (m.reasoning.Some? ==> EndsWith(ops, MessageOps(m, namespace, contexts)))
  {
    hide StoreRounds, MessageOps, EndsWith, IngestAll, Streamed;
    StreamKeepsInvariant(j, chunks, contexts, namespace);
    StreamedPartials(j, chunks, contexts, namespace);
    var s := Streamed(j, chunks, contexts, namespace);
    var p := PartialOf(s.partials, j);
    RoundsArePuts(s.partials, s.stages, j, true, contexts, namespace);
    if p.reasoning.None? {
      RoundsWithoutReasoning(s.partials, s.stages, j, true, contexts, namespace);
    } else if p.finish == "" {
      FinalRounds(s.partials, s.stages, j, true, contexts, namespace, |contexts|);
      assert contexts[..|contexts|] == contexts;
      EndsWithAppended(s.ops, MessageOps(ToMessage(p), namespace, contexts));
    } else {
      RoundsAfterFinal(s.partials, s.stages, j, true, contexts, namespace);
      assert s.ops + [] == s.ops;
    }
  }

  // ----- The last writes decide what is found -----

  /** The last position that writes `key`, or -1. */
  function LastWrite(tail: seq<Op>, key: Key): (i: int)
    ensures -1 <= i < |tail|
    ensures i >= 0 ==> tail[i].Put? && tail[i].key == key
  {
    if tail == [] then -1 else
    var n := |tail| - 1;
    if tail[n].Put? && tail[n].key == key then n else LastWrite(tail[..n], key)
  }

  lemma {:induction false} TicksOfPuts(a: seq<Op>, tail: seq<Op>)
    requires OnlyPuts(tail)
    ensures Ticks(a + tail) == Ticks(a) + 2 * |tail|
  {
    if tail == [] {
      assert a + tail == a;
    } else {
      var n := |tail| - 1;
      assert (a + tail)[..|a| + n] == a + tail[..n];
      assert tail[n] in tail;
      TicksOfPuts(a, tail[..n]);
    }
  }

  lemma OneMoreWrite(env: Env, trace: seq<Op>, op: Op)
    requires op.Put?
    ensures Written(env, trace + [op]) == Written(env, trace)[op.key := Row(op.reasoning, env.clock(Ticks(trace)))]
  {
    assert (trace + [op])[..|trace|] == trace;
  }

  /** After a batch of writes every key of the batch has the time of its last write in the batch, and
      every other key is as before. */
  lemma {:induction false} WrittenAfterPuts(env: Env, a: seq<Op>, tail: seq<Op>, key: Key)
    requires OnlyPuts(tail)
    ensures var i, w := LastWrite(tail, key), Written(env, a + tail);
      && (i >= 0 ==> key in w && w[key] == Row(tail[i].reasoning, env.clock(Ticks(a) + 2 * i)))
      && (i == -1 ==> (key in w <==> key in Written(env, a)) && (key in w ==> w[key] == Written(env, a)[key]))
  {
    hide Written, Ticks;
    if tail == [] {
      assert a + tail == a;
    } else {
      var n := |tail| - 1;
      assert a + tail == (a + tail[..n]) + [tail[n]];
      assert tail[n] in tail;
      OneMoreWrite(env, a + tail[..n], tail[n]);
      WrittenAfterPuts(env, a, tail[..n], key);
      TicksOfPuts(a, tail[..n]);
    }
  }

  /** The keys written later than `key` in a batch. */
  ghost function LaterInBatch(tail: seq<Op>, key: Key): set<Key> {
    set op | op in tail && op.Put? && LastWrite(tail, op.key) > LastWrite(tail, key) :: op.key
  }

  lemma ClockOrder(env: Env, n: nat, i: nat, j: nat)
    requires Ticking(env)
    ensures i < j ==> env.clock(n + 2 * i) < env.clock(n + 2 * j)
    ensures j < i ==> env.clock(n + 2 * j) < env.clock(n + 2 * i)
    ensures env.clock(n) <= env.clock(n + 2 * i)
  {
    assert i > 0 ==> env.clock(n) < env.clock(n + 2 * i);
  }

  /** `k` is written later than `key` in the whole trace exactly when its last write in the batch is later. */
  lemma LaterWrite(env: Env, a: seq<Op>, tail: seq<Op>, key: Key, k: Key)
    requires Ticking(env) && OnlyPuts(tail) && LastWrite(tail, key) >= 0
    ensures var w := Written(env, a + tail);
      key in w && (k in w && w[k].at > w[key].at <==> LastWrite(tail, k) > LastWrite(tail, key))
  {
    hide Written, LastWrite, Ticking, Ticks;
    var i, j := LastWrite(tail, key), LastWrite(tail, k);
    WrittenAfterPuts(env, a, tail, key);
    WrittenAfterPuts(env, a, tail, k);
    WrittenInThePast(env, a);
    ClockOrder(env, Ticks(a), i, if j >= 0 then j else 0);
  }

  lemma LaterIsLaterInBatch(env: Env, a: seq<Op>, tail: seq<Op>, key: Key)
    requires Ticking(env) && OnlyPuts(tail) && LastWrite(tail, key) >= 0
    ensures key in Written(env, a + tail)
    ensures Later(Written(env, a + tail), key) == LaterInBatch(tail, key)
  {
    hide Written, Ticking;
    var w := Written(env, a + tail);
    LaterWrite(env, a, tail, key, key);
    forall k: Key
      ensures k in Later(w, key) <==> k in LaterInBatch(tail, key)
    {
      LaterWrite(env, a, tail, key, k);
      InLaterInBatch(tail, key, k);
    }
  }

  lemma InLaterInBatch(tail: seq<Op>, key: Key, k: Key)
    requires LastWrite(tail, key) >= 0
    ensures k in LaterInBatch(tail, key) <==> LastWrite(tail, k) > LastWrite(tail, key)
  {
    hide LastWrite;
    var j := LastWrite(tail, k);
    if j >= 0 {
      assert tail[j] in tail;
    }
  }

  /** The batch took less time than the age limit: its first row is still young at its last prune. */
  ghost predicate RecordedInTime(env: Env, a: seq<Op>, tail: seq<Op>) {
    env.maxAge > 0 && tail != [] ==> Cutoff(env, env.clock(Ticks(a) + 2 * |tail| - 1)) <= env.clock(Ticks(a))
  }

  /** Whether a key of the last batch survives depends on the batch alone. */
  lemma BatchDecides(env: Env, a: seq<Op>, tail: seq<Op>, key: Key)
    requires Ticking(env) && OnlyPuts(tail) && LastWrite(tail, key) >= 0 && RecordedInTime(env, a, tail)
    ensures var rows := ApplyAll(env, EMPTY, a + tail).rows;
      && (key in rows <==> (env.maxRows > 0 ==> |LaterInBatch(tail, key)| < env.maxRows))
      && (key in rows ==> rows[key].reasoning == tail[LastWrite(tail, key)].reasoning)
  {
    hide Written, LastWrite, Ticking, Ticks, ApplyAll, LaterInBatch, Later, Cutoff;
    CacheAgreesWithHistory(env, a + tail);
    LaterIsLaterInBatch(env, a, tail, key);
    WrittenAfterPuts(env, a, tail, key);
    TicksOfPuts(a, tail);
    ClockOrder(env, Ticks(a), LastWrite(tail, key), 0);
  }

  lemma {:induction false} FirstHitAgrees(x: map<Key, Row>, y: map<Key, Row>, keys: seq<Key>)
    requires forall k | k in keys :: (k in x <==> k in y) && (k in x ==> x[k].reasoning == y[k].reasoning)
    ensures FirstHit(x, keys) == FirstHit(y, keys)
  {
    if keys != [] {
      FirstHitAgrees(x, y, keys[1..]);
    }
  }

  lemma {:induction false} MessageOpsContents(message: Message, namespace: Namespace, contexts: seq<RecordingContext>)
    requires message.role == Assistant && message.reasoning.Some?
    ensures OnlyPuts(MessageOps(message, namespace, contexts))
    ensures forall op | op in MessageOps(message, namespace, contexts) :: op.reasoning == message.reasoning.value
    ensures forall c, k | c in contexts && k in MessageKeys(message, c.scope, Some(namespace), c.messages) ::
      exists op :: op in MessageOps(message, namespace, contexts) && op.key == k
  {
    if contexts != [] {
      var n := |contexts| - 1;
      MessageOpsContents(message, namespace, contexts[..n]);
      StoreOpsContents(message, contexts[n].scope, Some(namespace), contexts[n].messages);
      assert forall c | c in contexts :: c in contexts[..n] || c == contexts[n];
    }
  }

  lemma {:induction false} WrittenHasLast(tail: seq<Op>, key: Key)
    requires exists op :: op in tail && op.Put? && op.key == key
    ensures LastWrite(tail, key) >= 0
  {
    var n := |tail| - 1;
    if !(tail[n].Put? && tail[n].key == key) {
      WrittenHasLast(tail[..n], key);
    }
  }

  /** Two traces that end with recording the same message answer every lookup of it alike. */
  lemma SameBatchSameLookup(env: Env, a: seq<Op>, b: seq<Op>, m: Message, namespace: Namespace,
                            contexts: seq<RecordingContext>, context: RecordingContext)
    requires Ticking(env) && context in contexts
    requires m.role == Assistant && m.reasoning.Some?
    requires RecordedInTime(env, a, MessageOps(m, namespace, contexts))
    requires RecordedInTime(env, b, MessageOps(m, namespace, contexts))
    ensures var tail := MessageOps(m, namespace, contexts);
      Lookup(ApplyAll(env, EMPTY, a + tail), m, context.scope, Some(namespace), context.messages)
      == Lookup(ApplyAll(env, EMPTY, b + tail), m, context.scope, Some(namespace), context.messages)
  {
    hide MessageOps, MessageKeys, ApplyAll, RecordedInTime, LaterInBatch;
    var tail, keys := MessageOps(m, namespace, contexts),
      MessageKeys(m, context.scope, Some(namespace), context.messages);
    MessageOpsContents(m, namespace, contexts);
    var x, y := ApplyAll(env, EMPTY, a + tail).rows, ApplyAll(env, EMPTY, b + tail).rows;
    forall k | k in keys
      ensures (k in x <==> k in y) && (k in x ==> x[k].reasoning == y[k].reasoning)
    {
      WrittenHasLast(tail, k);
      BatchDecides(env, a, tail, k);
      BatchDecides(env, b, tail, k);
    }
    FirstHitAgrees(x, y, keys);
  }

  /** Streamed recording refines whole-message recording. From any store that a trace of writes,
      prunes and clears can lead to, under any limits, and however one choice's message is cut into
      chunks: looking the complete message up after the stream gives the same answer as after
      recording it in one piece. With an age limit, recording itself must not take that long. */
  lemma StreamedLookupAgrees(env: Env, before: seq<Op>, j: int, chunks: seq<Chunks.Chunk>,
                             contexts: seq<RecordingContext>, namespace: Namespace, context: RecordingContext)
    requires Ticking(env) && OneChoice(j, chunks) && QuietAfterFinish(j, chunks)
    requires DistinctScopes(contexts) && context in contexts
    requires StreamedMessage(j, chunks).role == Assistant
    requires var ops, tail := StreamOps(j, chunks, contexts, namespace),
      MessageOps(StreamedMessage(j, chunks), namespace, contexts);
      && RecordedInTime(env, before, tail)
      && (|tail| <= |ops| ==> RecordedInTime(env, before + ops[..|ops| - |tail|], tail))
    ensures var m := StreamedMessage(j, chunks);
      var streamed := ApplyAll(env, EMPTY, before + StreamOps(j, chunks, contexts, namespace));
      var whole := ApplyAll(env, EMPTY, before + RecordOps([m], namespace, contexts));
      Lookup(streamed, m, context.scope, Some(namespace), context.messages)
      == Lookup(whole, m, context.scope, Some(namespace), context.messages)
  {
    hide StreamOps, MessageOps, StreamedMessage, ApplyAll, Lookup, RecordedInTime, RecordOps;
    var m, ops := StreamedMessage(j, chunks), StreamOps(j, chunks, contexts, namespace);
    var tail := MessageOps(m, namespace, contexts);
    StreamEndsWithMessage(j, chunks, contexts, namespace);
    RecordOneMessage(m, namespace, contexts);
    if m.reasoning.None? {
      NothingToRecord(m, namespace, contexts);
    } else {
      var early := ops[..|ops| - |tail|];
      assert before + ops == (before + early) + tail;
      SameBatchSameLookup(env, before + early, before, m, namespace, contexts, context);
    }
  }

  lemma RecordOneMessage(m: Message, namespace: Namespace, contexts: seq<RecordingContext>)
    ensures RecordOps([m], namespace, contexts) == MessageOps(m, namespace, contexts)
  {
    assert [m][..0] == [];
    assert RecordOps([], namespace, contexts) == [];
  }

  lemma {:induction false} NothingToRecord(m: Message, namespace: Namespace, contexts: seq<RecordingContext>)
    requires m.reasoning.None?
    ensures MessageOps(m, namespace, contexts) == []
  {
    if contexts != [] {
      NothingToRecord(m, namespace, contexts[..|contexts| - 1]);
    }
  }
}
