/** Recording a stream of any number of choices, visited in any order. */
module StreamRuns {
  import opened Keys
  import opened ReasoningStore
  import opened Prepare
  import opened Accumulator
  import opened StreamRecording
  import AccumulatorFold
  import Chunks

  // ----- One round -----

  /** One pass per recording context, each over the choices in its own order. */
  function OrderedRounds(partials: Partials, stages: Stages, orders: seq<seq<int>>, atEnd: bool,
                         contexts: seq<RecordingContext>, namespace: Namespace): Batch
    requires |orders| == |contexts|
  {
    if contexts == [] then Batch(stages, []) else
    var n := |contexts| - 1;
    var before := OrderedRounds(partials, stages, orders[..n], atEnd, contexts[..n], namespace);
    var pass := StorePass(partials, before.stages, orders[n], atEnd, contexts[n], namespace);
    Batch(pass.stages, before.ops + pass.ops)
  }

  ghost predicate AllEnumerate(orders: seq<seq<int>>, keys: set<int>) {
    forall order | order in orders :: Enumerates(order, keys)
  }

  lemma RoundsBegin(env: Env, table: Table, partials: Partials, stages: Stages, atEnd: bool, namespace: Namespace)
    ensures OrderedRounds(partials, stages, [], atEnd, [], namespace) == Batch(stages, [])
    ensures ApplyAll(env, table, []) == table
  {
  }

  lemma RoundsExtend(env: Env, table: Table, partials: Partials, stages: Stages, orders: seq<seq<int>>, order: seq<int>,
                     atEnd: bool, contexts: seq<RecordingContext>, context: RecordingContext, namespace: Namespace)
    requires |orders| == |contexts|
    ensures var before := OrderedRounds(partials, stages, orders, atEnd, contexts, namespace);
      var pass := StorePass(partials, before.stages, order, atEnd, context, namespace);
      && OrderedRounds(partials, stages, orders + [order], atEnd, contexts + [context], namespace)
         == Batch(pass.stages, before.ops + pass.ops)
      && ApplyAll(env, table, before.ops + pass.ops) == ApplyAll(env, ApplyAll(env, table, before.ops), pass.ops)
  {
    hide StorePass, ApplyAll;
    assert (orders + [order])[..|orders|] == orders && (contexts + [context])[..|contexts|] == contexts;
    var before := OrderedRounds(partials, stages, orders, atEnd, contexts, namespace);
    var pass := StorePass(partials, before.stages, order, atEnd, context, namespace);
    ApplyAllConcat(env, table, before.ops, pass.ops);
  }

  // ----- The whole stream -----

  /** One round of visiting orders per chunk, of the choices seen until then. */
  ghost predicate VisitsChunks(chunks: seq<Chunks.Chunk>, visits: seq<seq<seq<int>>>, contexts: seq<RecordingContext>) {
    && VisitsFit(chunks, visits, contexts)
    && forall n: nat | n < |chunks| ::
         AllEnumerate(visits[n], IngestAll(map[], Chunks.Entries(chunks[..n + 1])).Keys)
  }

  ghost predicate VisitsFit(chunks: seq<Chunks.Chunk>, visits: seq<seq<seq<int>>>, contexts: seq<RecordingContext>) {
    |visits| == |chunks| && forall n | 0 <= n < |visits| :: |visits[n]| == |contexts|
  }

  ghost function OrderedStreamed(chunks: seq<Chunks.Chunk>, visits: seq<seq<seq<int>>>, contexts: seq<RecordingContext>,
                                 namespace: Namespace): StreamState
    requires VisitsFit(chunks, visits, contexts)
  {
    if chunks == [] then StreamState(map[], map[], []) else
    var n := |chunks| - 1;
    var before := OrderedStreamed(chunks[..n], visits[..n], contexts, namespace);
    var partials := IngestAll(before.partials, chunks[n].choices);
    var batch := OrderedRounds(partials, before.stages, visits[n], false, contexts, namespace);
    StreamState(partials, batch.stages, before.ops + batch.ops)
  }

  /** The orders of a whole stream: one round per chunk, and the round at the end. */
  datatype Visits = Visits(chunks: seq<seq<seq<int>>>, last: seq<seq<int>>)

  ghost predicate VisitsStream(chunks: seq<Chunks.Chunk>, visits: Visits, contexts: seq<RecordingContext>) {
    && VisitsChunks(chunks, visits.chunks, contexts) && |visits.last| == |contexts|
    && AllEnumerate(visits.last, IngestAll(map[], Chunks.Entries(chunks)).Keys)
  }

  /** All writes of the stream, the final round included. */
  ghost function OrderedOps(chunks: seq<Chunks.Chunk>, visits: Visits, contexts: seq<RecordingContext>,
                            namespace: Namespace)
    : seq<Op>
    requires VisitsFit(chunks, visits.chunks, contexts) && |visits.last| == |contexts|
  {
    var s := OrderedStreamed(chunks, visits.chunks, contexts, namespace);
    s.ops + OrderedRounds(s.partials, s.stages, visits.last, true, contexts, namespace).ops
  }

  lemma {:induction false} OrderedPartials(chunks: seq<Chunks.Chunk>, visits: seq<seq<seq<int>>>,
                                           contexts: seq<RecordingContext>, namespace: Namespace)
    requires VisitsFit(chunks, visits, contexts)
    ensures OrderedStreamed(chunks, visits, contexts, namespace).partials == IngestAll(map[], Chunks.Entries(chunks))
  {
    hide OrderedRounds;
    if chunks != [] {
      var n := |chunks| - 1;
      OrderedPartials(chunks[..n], visits[..n], contexts, namespace);
      IngestAllConcat(map[], Chunks.Entries(chunks[..n]), chunks[n].choices);
    }
  }

  lemma EntriesAppend(chunks: seq<Chunks.Chunk>, chunk: Chunks.Chunk)
    ensures Chunks.Entries(chunks + [chunk]) == Chunks.Entries(chunks) + chunk.choices
  {
    assert (chunks + [chunk])[..|chunks|] == chunks;
  }

  /** One more chunk and its round. */
  lemma VisitsGrow(chunks: seq<Chunks.Chunk>, visits: seq<seq<seq<int>>>, contexts: seq<RecordingContext>,
                   namespace: Namespace,
                   chunk: Chunks.Chunk, orders: seq<seq<int>>)
    requires VisitsChunks(chunks, visits, contexts) && |orders| == |contexts|
    requires AllEnumerate(orders, IngestAll(map[], Chunks.Entries(chunks + [chunk])).Keys)
    ensures VisitsChunks(chunks + [chunk], visits + [orders], contexts)
    ensures var before := OrderedStreamed(chunks, visits, contexts, namespace);
      var partials := IngestAll(before.partials, chunk.choices);
      var batch := OrderedRounds(partials, before.stages, orders, false, contexts, namespace);
      OrderedStreamed(chunks + [chunk], visits + [orders], contexts, namespace)
      == StreamState(partials, batch.stages, before.ops + batch.ops)
  {
    hide OrderedRounds, AllEnumerate, IngestAll;
    var all, rounds := chunks + [chunk], visits + [orders];
    assert all[..|chunks|] == chunks && rounds[..|visits|] == visits;
    forall n: nat | n < |all|
      ensures AllEnumerate(rounds[n], IngestAll(map[], Chunks.Entries(all[..n + 1])).Keys)
    {
      if n < |chunks| {
        assert all[..n + 1] == chunks[..n + 1];
      } else {
        assert all[..n + 1] == all;
      }
    }
  }

  // ----- One choice -----

  /** With a single choice there is only one order to visit the choices in. */
  lemma {:induction false} OneOrder(j: int, partials: Partials, stages: Stages, orders: seq<seq<int>>, atEnd: bool,
                                    contexts: seq<RecordingContext>, namespace: Namespace)
    requires |orders| == |contexts| && AllEnumerate(orders, partials.Keys)
    requires forall k | k in partials :: k == j
    ensures OrderedRounds(partials, stages, orders, atEnd, contexts, namespace)
         == StoreRounds(partials, stages, j, atEnd, contexts, namespace)
  {
    hide StorePass;
    if contexts != [] {
      var n := |contexts| - 1;
      assert forall order | order in orders[..n] :: order in orders;
      OneOrder(j, partials, stages, orders[..n], atEnd, contexts[..n], namespace);
      assert orders[n] in orders;
      OrderOfOne(orders[n], partials.Keys, j);
    }
  }

  lemma EnumeratedKey(order: seq<int>, keys: set<int>, i: nat)
    requires Enumerates(order, keys) && i < |order|
    ensures order[i] in keys
  {
    var key := order[i];
    assert key in order;
  }

  lemma OrderOfOne(order: seq<int>, keys: set<int>, j: int)
    requires Enumerates(order, keys) && forall k | k in keys :: k == j
    ensures order == if j in keys then [j] else []
  {
    if order != [] {
      EnumeratedKey(order, keys, 0);
      assert order[0] == j;
      if |order| > 1 {
        EnumeratedKey(order, keys, 1);
      } else {
        assert order == [j];
      }
    }
  }

  lemma {:induction false} OthersAreAbsent(j: int, entries: seq<Chunks.Choice>, k: int)
    requires k != j && forall e | e in entries :: Chunks.IndexOf(e) == j
    ensures Chunks.Own(entries, k) == []
  {
    if entries != [] {
      assert entries[|entries| - 1] in entries;
      OthersAreAbsent(j, entries[..|entries| - 1], k);
    }
  }

  lemma OnlyChoice(j: int, chunks: seq<Chunks.Chunk>)
    requires OneChoice(j, chunks)
    ensures forall k | k in IngestAll(map[], Chunks.Entries(chunks)) :: k == j
  {
    forall k | k in IngestAll(map[], Chunks.Entries(chunks))
      ensures k == j
    {
      AccumulatorFold.ChoiceIsOwnFold(map[], Chunks.Entries(chunks), k);
      if k != j {
        OthersAreAbsent(j, Chunks.Entries(chunks), k);
      }
    }
  }

  /** With one choice the visiting orders do not matter: the stream is recorded as `Streamed` says. */
  lemma {:induction false} OneChoiceStream(j: int, chunks: seq<Chunks.Chunk>, visits: seq<seq<seq<int>>>,
                                           contexts: seq<RecordingContext>, namespace: Namespace)
    requires OneChoice(j, chunks) && VisitsChunks(chunks, visits, contexts)
    ensures OrderedStreamed(chunks, visits, contexts, namespace) == Streamed(j, chunks, contexts, namespace)
  {
    hide StoreRounds, OrderedRounds, IngestAll, AllEnumerate;
    if chunks != [] {
      var n := |chunks| - 1;
      assert chunks == chunks[..n] + [chunks[n]];
      EntriesAppend(chunks[..n], chunks[n]);
      PrefixIsVisited(chunks, visits, contexts, n);
      OneChoiceStream(j, chunks[..n], visits[..n], contexts, namespace);
      OnlyChoice(j, chunks);
      StreamedPartials(j, chunks, contexts, namespace);
      var before := Streamed(j, chunks[..n], contexts, namespace);
      assert chunks[..n + 1] == chunks;
      OneOrder(j, IngestAll(map[], Chunks.Entries(chunks)), before.stages, visits[n], false, contexts, namespace);
    }
  }

  lemma PrefixIsVisited(chunks: seq<Chunks.Chunk>, visits: seq<seq<seq<int>>>, contexts: seq<RecordingContext>, n: nat)
    requires VisitsChunks(chunks, visits, contexts) && n <= |chunks|
    ensures VisitsChunks(chunks[..n], visits[..n], contexts)
  {
    hide AllEnumerate, IngestAll;
    forall k: nat | k < n
      ensures AllEnumerate(visits[..n][k], IngestAll(map[], Chunks.Entries(chunks[..n][..k + 1])).Keys)
    {
      assert chunks[..n][..k + 1] == chunks[..k + 1];
    }
  }

  lemma OneChoiceOps(j: int, chunks: seq<Chunks.Chunk>, visits: Visits, contexts: seq<RecordingContext>,
                     namespace: Namespace)
    requires OneChoice(j, chunks) && VisitsStream(chunks, visits, contexts)
    ensures OrderedOps(chunks, visits, contexts, namespace) == StreamOps(j, chunks, contexts, namespace)
  {
    hide StoreRounds, OrderedRounds, IngestAll, AllEnumerate, OrderedStreamed;
    OneChoiceStream(j, chunks, visits.chunks, contexts, namespace);
    OrderedPartials(chunks, visits.chunks, contexts, namespace);
    OnlyChoice(j, chunks);
    var s := Streamed(j, chunks, contexts, namespace);
    OneOrder(j, s.partials, s.stages, visits.last, true, contexts, namespace);
  }
}
