/** Several choices in one stream: each choice's own writes are those of its own stream. */
module OwnWrites {
  import opened Messages
  import opened Keys
  import opened ReasoningStore
  import opened Prepare
  import opened Recording
  import opened Accumulator
  import opened StreamRecording
  import opened StreamRuns
  import opened StageHistory
  import Chunks

  /** The writes that the decisions of choice `j` make in a run, or those of all the others. */
  function WritesOf(stages: Stages, ds: seq<Decision>, namespace: Namespace, j: int, own: bool): seq<Op> {
    if ds == [] then [] else
    var n := |ds| - 1;
    var before := WritesOf(stages, ds[..n], namespace, j, own);
    if (ds[n].choice == j) == own
    then before + Decide(RunDecisions(stages, ds[..n], namespace).stages, ds[n], namespace).ops
    else before
  }

  lemma {:induction false} WritesConcat(stages: Stages, a: seq<Decision>, b: seq<Decision>, namespace: Namespace,
                                        j: int, own: bool)
    ensures WritesOf(stages, a + b, namespace, j, own)
         == WritesOf(stages, a, namespace, j, own)
            + WritesOf(RunDecisions(stages, a, namespace).stages, b, namespace, j, own)
  {
    hide Decide;
    if b == [] {
      assert a + b == a;
    } else {
      var n := |b| - 1;
      assert (a + b)[..|a| + n] == a + b[..n];
      WritesConcat(stages, a, b[..n], namespace, j, own);
      RunConcat(stages, a, b[..n], namespace);
    }
  }

  // ----- Own decisions see own stages -----

  /** Two records of stages agree on choice `j`. */
  ghost predicate AgreeOn(a: Stages, b: Stages, j: int) {
    forall scope: Scope :: Rank(a, (j, scope)) == Rank(b, (j, scope))
  }

  /** A run `ds` from `stages` does for choice `j` what `batch` does from stages that agree on `j`. */
  ghost predicate DoesFor(stages: Stages, ds: seq<Decision>, namespace: Namespace, j: int, batch: Batch) {
    && WritesOf(stages, ds, namespace, j, true) == batch.ops
    && AgreeOn(RunDecisions(stages, ds, namespace).stages, batch.stages, j)
  }

  lemma DecideAgrees(a: Stages, b: Stages, d: Decision, namespace: Namespace, j: int)
    requires AgreeOn(a, b, j)
    ensures d.choice == j ==>
      Decide(a, d, namespace).ops == Decide(b, d, namespace).ops
      && AgreeOn(Decide(a, d, namespace).stages, Decide(b, d, namespace).stages, j)
    ensures d.choice != j ==> AgreeOn(Decide(a, d, namespace).stages, b, j)
  {
    StagesOnlyAdvance(a, d, namespace);
    StagesOnlyAdvance(b, d, namespace);
  }

  lemma OneDoesFor(a: Stages, b: Stages, d: Decision, namespace: Namespace, j: int)
    requires AgreeOn(a, b, j)
    ensures DoesFor(a, [d], namespace, j, if d.choice == j then Decide(b, d, namespace) else Batch(b, []))
  {
    hide AgreeOn, Decide;
    DecideAgrees(a, b, d, namespace, j);
    assert [d][..0] == [] && RunDecisions(a, [], namespace) == Batch(a, []);
    var one := Decide(a, d, namespace);
    assert RunDecisions(a, [d], namespace) == Batch(one.stages, [] + one.ops);
    assert WritesOf(a, [d], namespace, j, true) == if d.choice == j then [] + one.ops else [];
  }

  lemma ReadyDoesFor(a: Stages, b: Stages, k: int, p: Partial, atEnd: bool, context: RecordingContext,
                     namespace: Namespace, j: int)
    requires AgreeOn(a, b, j)
    ensures DoesFor(a, ReadyDecision(k, p, atEnd, context), namespace, j,
                    if k == j then StoreIfReady(b, j, p, atEnd, context, namespace) else Batch(b, []))
  {
    hide StoreChoice, AgreeOn, HasIdentifiedToolCalls, DoesFor;
    var ds := ReadyDecision(k, p, atEnd, context);
    if ds == [] {
      NothingDone(a, b, namespace, j);
    } else {
      OneDoesFor(a, b, ds[0], namespace, j);
    }
  }

  lemma DoesForConcat(stages: Stages, x: seq<Decision>, y: seq<Decision>, namespace: Namespace, j: int, first: Batch,
                      then_: Batch)
    requires DoesFor(stages, x, namespace, j, first)
    requires DoesFor(RunDecisions(stages, x, namespace).stages, y, namespace, j, then_)
    ensures DoesFor(stages, x + y, namespace, j, Batch(then_.stages, first.ops + then_.ops))
  {
    hide AgreeOn, WritesOf, RunDecisions;
    WritesConcat(stages, x, y, namespace, j, true);
    RunConcat(stages, x, y, namespace);
  }

  lemma {:induction false} PassDoesFor(partials: Partials, a: Stages, b: Stages, order: seq<int>, atEnd: bool,
                                       context: RecordingContext,
                                       namespace: Namespace, j: int)
    requires AgreeOn(a, b, j) && forall i, k | 0 <= i < k < |order| :: order[i] != order[k]
    ensures DoesFor(a, PassDecisions(partials, order, atEnd, context), namespace, j,
                    if j in order then StoreIfReady(b, j, PartialOf(partials, j), atEnd, context, namespace)
                        else Batch(b, []))
  {
    hide AgreeOn, StoreIfReady, ReadyDecision, DoesFor, RunDecisions, WritesOf;
    if order == [] {
      NothingDone(a, b, namespace, j);
    } else {
      var n := |order| - 1;
      var x, y := PassDecisions(partials, order[..n], atEnd, context),
                  ReadyDecision(order[n], PartialOf(partials, order[n]), atEnd, context);
      PassDoesFor(partials, a, b, order[..n], atEnd, context, namespace, j);
      var first := if j in order[..n] then StoreIfReady(b, j, PartialOf(partials, j), atEnd, context, namespace)
        else Batch(b, []);
      var middle := RunDecisions(a, x, namespace).stages;
      assert AgreeOn(middle, first.stages, j) by { DoesForAgrees(a, x, namespace, j, first); }
      ReadyDoesFor(middle, first.stages, order[n], PartialOf(partials, order[n]), atEnd, context, namespace, j);
      LastOfOrder(order, j);
      DoesForConcat(a, x, y, namespace, j, first,
        if order[n] == j then StoreIfReady(first.stages, j, PartialOf(partials, j), atEnd, context, namespace)
        else Batch(first.stages, []));
      assert first.ops + [] == first.ops;
      assert order[n] == j ==> first == Batch(b, []);
      var last := StoreIfReady(b, j, PartialOf(partials, j), atEnd, context, namespace);
      assert [] + last.ops == last.ops;
    }
  }

  lemma LastOfOrder(order: seq<int>, j: int)
    requires order != [] && forall i, k | 0 <= i < k < |order| :: order[i] != order[k]
    ensures var n := |order| - 1;
      && (j in order <==> j in order[..n] || j == order[n])
      && !(j in order[..n] && j == order[n])
  {
    assert order == order[..|order| - 1] + [order[|order| - 1]];
  }

  lemma DoesForAgrees(stages: Stages, ds: seq<Decision>, namespace: Namespace, j: int, batch: Batch)
    requires DoesFor(stages, ds, namespace, j, batch)
    ensures AgreeOn(RunDecisions(stages, ds, namespace).stages, batch.stages, j)
  {
  }

  lemma NothingDone(a: Stages, b: Stages, namespace: Namespace, j: int)
    requires AgreeOn(a, b, j)
    ensures DoesFor(a, [], namespace, j, Batch(b, []))
  {
  }

  lemma OwnPass(partials: Partials, stages: Stages, j: int, atEnd: bool, context: RecordingContext,
                namespace: Namespace)
    ensures StorePass(partials, stages, VisitOrder(partials, j), atEnd, context, namespace)
         == if j in partials then StoreIfReady(stages, j, partials[j], atEnd, context, namespace) else Batch(stages, [])
  {
    hide StoreIfReady;
    if j in partials {
      PassOfOne(partials, stages, j, atEnd, context, namespace);
    }
  }

  lemma {:induction false} RoundDoesFor(partials: Partials, a: Stages, b: Stages, orders: seq<seq<int>>, atEnd: bool,
                                        contexts: seq<RecordingContext>, namespace: Namespace, j: int)
    requires AgreeOn(a, b, j) && |orders| == |contexts| && AllEnumerate(orders, partials.Keys)
    ensures DoesFor(a, RoundDecisions(partials, orders, atEnd, contexts), namespace, j,
                    StoreRounds(partials, b, j, atEnd, contexts, namespace))
  {
    hide AgreeOn, StorePass, PassDecisions, DoesFor, RunDecisions, WritesOf, StoreIfReady;
    if contexts == [] {
      NothingDone(a, b, namespace, j);
    } else {
      var n := |contexts| - 1;
      assert forall order | order in orders[..n] :: order in orders;
      RoundDoesFor(partials, a, b, orders[..n], atEnd, contexts[..n], namespace, j);
      var x, first := RoundDecisions(partials, orders[..n], atEnd, contexts[..n]),
                      StoreRounds(partials, b, j, atEnd, contexts[..n], namespace);
      DoesForAgrees(a, x, namespace, j, first);
      assert orders[n] in orders;
      PassDoesFor(partials, RunDecisions(a, x, namespace).stages, first.stages, orders[n], atEnd, contexts[n],
                  namespace, j);
      OwnPass(partials, first.stages, j, atEnd, contexts[n], namespace);
      DoesForConcat(a, x, PassDecisions(partials, orders[n], atEnd, contexts[n]), namespace, j, first,
                    StorePass(partials, first.stages, VisitOrder(partials, j), atEnd, contexts[n], namespace));
    }
  }

  lemma {:induction false} StreamDoesFor(chunks: seq<Chunks.Chunk>, visits: seq<seq<seq<int>>>,
                                         contexts: seq<RecordingContext>,
                                         namespace: Namespace, j: int)
    requires VisitsChunks(chunks, visits, contexts)
    ensures var s := Streamed(j, chunks, contexts, namespace);
      DoesFor(map[], StreamDecisions(chunks, visits, contexts), namespace, j, Batch(s.stages, s.ops))
  {
    hide DoesFor, AgreeOn, RoundDecisions, StoreRounds, AllEnumerate, IngestAll;
    if chunks == [] {
      StagesAgree(map[], j);
      NothingDone(map[], map[], namespace, j);
    } else {
      var n := |chunks| - 1;
      PrefixIsVisited(chunks, visits, contexts, n);
      StreamDoesFor(chunks[..n], visits[..n], contexts, namespace, j);
      var x, before := StreamDecisions(chunks[..n], visits[..n], contexts),
        Streamed(j, chunks[..n], contexts, namespace);
      DoesForAgrees(map[], x, namespace, j, Batch(before.stages, before.ops));
      StreamedPartials(j, chunks, contexts, namespace);
      assert chunks[..n + 1] == chunks;
      var partials := IngestAll(map[], Chunks.Entries(chunks));
      RoundDoesFor(partials, RunDecisions(map[], x, namespace).stages, before.stages, visits[n], false, contexts,
                   namespace, j);
      DoesForConcat(map[], x, RoundDecisions(partials, visits[n], false, contexts), namespace, j,
                    Batch(before.stages, before.ops),
                    StoreRounds(partials, before.stages, j, false, contexts, namespace));
    }
  }

  lemma StagesAgree(stages: Stages, j: int)
    ensures AgreeOn(stages, stages, j)
  {
  }

  /** In a stream of any number of choices, visited in any order, the writes of choice `j` are exactly those
      of a stream in which only `j` is ever visited. */
  lemma OwnWritesOfStream(chunks: seq<Chunks.Chunk>, visits: Visits, contexts: seq<RecordingContext>,
                          namespace: Namespace, j: int)
    requires VisitsStream(chunks, visits, contexts)
    ensures WritesOf(map[], AllDecisions(chunks, visits, contexts), namespace, j, true)
         == StreamOps(j, chunks, contexts, namespace)
  {
    hide DoesFor, AgreeOn, RoundDecisions, StoreRounds, AllEnumerate, IngestAll, StreamDecisions, Streamed;
    StreamDoesFor(chunks, visits.chunks, contexts, namespace, j);
    var x, s := StreamDecisions(chunks, visits.chunks, contexts), Streamed(j, chunks, contexts, namespace);
    DoesForAgrees(map[], x, namespace, j, Batch(s.stages, s.ops));
    StreamedPartials(j, chunks, contexts, namespace);
    RoundDoesFor(s.partials, RunDecisions(map[], x, namespace).stages, s.stages, visits.last, true, contexts,
                 namespace, j);
    DoesForConcat(map[], x, RoundDecisions(s.partials, visits.last, true, contexts), namespace, j,
                  Batch(s.stages, s.ops),
                  StoreRounds(s.partials, s.stages, j, true, contexts, namespace));
    DoesForWrites(map[], AllDecisions(chunks, visits, contexts), namespace, j,
                  Batch(StoreRounds(s.partials, s.stages, j, true, contexts, namespace).stages,
                        StreamOps(j, chunks, contexts, namespace)));
  }

  lemma DoesForWrites(stages: Stages, ds: seq<Decision>, namespace: Namespace, j: int, batch: Batch)
    requires DoesFor(stages, ds, namespace, j, batch)
    ensures WritesOf(stages, ds, namespace, j, true) == batch.ops
  {
  }

  // ----- Keys that only one choice produces -----

  /** The last write of a key that no other choice writes is an own write. */
  lemma {:induction false} LastWriteIsOwn(stages: Stages, ds: seq<Decision>, namespace: Namespace, j: int, key: Key)
    requires forall op | op in WritesOf(stages, ds, namespace, j, false) :: op.Put? && op.key != key
    ensures LastWritten(RunDecisions(stages, ds, namespace).ops, key)
      == LastWritten(WritesOf(stages, ds, namespace, j, true), key)
  {
    hide Decide;
    if ds != [] {
      var n := |ds| - 1;
      var one := Decide(RunDecisions(stages, ds[..n], namespace).stages, ds[n], namespace);
      LastWriteIsOwn(stages, ds[..n], namespace, j, key);
      LastWrittenConcat(RunDecisions(stages, ds[..n], namespace).ops, one.ops, key);
      LastWrittenConcat(WritesOf(stages, ds[..n], namespace, j, true), one.ops, key);
      if ds[n].choice != j {
        NotWritten(one.ops, key);
      }
    }
  }

  lemma {:induction false} DecisionsArePuts(stages: Stages, ds: seq<Decision>, namespace: Namespace)
    ensures OnlyPuts(RunDecisions(stages, ds, namespace).ops)
  {
    if ds != [] {
      var n := |ds| - 1;
      DecisionsArePuts(stages, ds[..n], namespace);
      var message := ToMessage(ds[n].partial);
      StoreOpsArePuts(message, ds[n].context.scope, Some(namespace), ds[n].context.messages);
    }
  }

  lemma LastOfTail(ops: seq<Op>, tail: seq<Op>, key: Key)
    requires EndsWith(ops, tail) && LastWritten(tail, key).Some?
    ensures LastWritten(ops, key) == LastWritten(tail, key)
  {
    assert ops == ops[..|ops| - |tail|] + tail;
    LastWrittenConcat(ops[..|ops| - |tail|], tail, key);
  }

  /** After a stream of any number of choices, recorded in any visiting order, over any store and under any
      limits: every key of a choice's complete message that no other choice writes holds that choice's
      complete reasoning, unless it is evicted; and without limits it is there. */
  lemma OwnKeysAreExact(env: Env, table: Table, chunks: seq<Chunks.Chunk>, visits: Visits,
                        contexts: seq<RecordingContext>,
                        namespace: Namespace, j: int, context: RecordingContext, key: Key)
    requires VisitsStream(chunks, visits, contexts) && DistinctScopes(contexts) && context in contexts
    requires QuietAfterFinish(j, chunks)
    requires var m := StreamedMessage(j, chunks); m.role == Assistant && m.reasoning.Some?
    requires key in MessageKeys(StreamedMessage(j, chunks), context.scope, Some(namespace), context.messages)
    requires forall op | op in WritesOf(map[], AllDecisions(chunks, visits, contexts), namespace, j, false) ::
      op.Put? && op.key != key
    ensures var rows := ApplyAll(env, table, OrderedOps(chunks, visits, contexts, namespace)).rows;
      && (key in rows ==> Some(rows[key].reasoning) == StreamedMessage(j, chunks).reasoning)
      && (NoEviction(env) ==> key in rows)
  {
    hide AllDecisions, StreamedMessage, MessageKeys, MessageOps, OrderedOps, StreamOps, RunDecisions, WritesOf,
      AllEnumerate, QuietAfterFinish, ApplyAll, DistinctScopes, EndsWith, NoEviction;
    var ds, m := AllDecisions(chunks, visits, contexts), StreamedMessage(j, chunks);
    var tail := MessageOps(m, namespace, contexts);
    LastWriteIsOwn(map[], ds, namespace, j, key);
    OwnWritesOfStream(chunks, visits, contexts, namespace, j);
    DecisionsMakeTheWrites(chunks, visits, contexts, namespace);
    DecisionsArePuts(map[], ds, namespace);
    StreamEndsWithMessage(j, chunks, contexts, namespace);
    MessageOpsContents(m, namespace, contexts);
    WrittenAlike(tail, key, m.reasoning.value);
    LastOfTail(StreamOps(j, chunks, contexts, namespace), tail, key);
    RowIsLastWrite(env, table, OrderedOps(chunks, visits, contexts, namespace), key);
  }
}
