/** The store decisions of a run: every stage of a choice and scope is stored at most once, in order. */
module StageHistory {
  import opened Keys
  import opened Prepare
  import opened Accumulator
  import opened StreamRuns
  import Chunks

  /** One call that may store a choice under a recording context. */
  datatype Decision = Decision(choice: int, partial: Partial, stage: Stage, context: RecordingContext)

  function KeyOf(d: Decision): (int, Scope) {
    (d.choice, d.context.scope)
  }

  function Decide(stages: Stages, d: Decision, namespace: Namespace): Batch {
    StoreChoice(stages, d.choice, d.partial, d.stage, d.context, namespace)
  }

  function RunDecisions(stages: Stages, ds: seq<Decision>, namespace: Namespace): Batch {
    if ds == [] then Batch(stages, []) else
    var n := |ds| - 1;
    var before := RunDecisions(stages, ds[..n], namespace);
    var one := Decide(before.stages, ds[n], namespace);
    Batch(one.stages, before.ops + one.ops)
  }

  /** Decision `i` of a run stores something. */
  predicate Succeeds(stages: Stages, ds: seq<Decision>, namespace: Namespace, i: nat)
    requires i < |ds|
  {
    Decide(RunDecisions(stages, ds[..i], namespace).stages, ds[i], namespace).ops != []
  }

  // ----- Stages only advance -----

  /** A decision that stores raises the stage of its choice and scope, to exactly the stage it was made
      for, and touches no other; one that stores nothing changes nothing. */
  lemma StagesOnlyAdvance(stages: Stages, d: Decision, namespace: Namespace)
    ensures var batch := Decide(stages, d, namespace);
      && (batch.ops == [] ==> batch.stages == stages)
      && (batch.ops != [] ==> Rank(stages, KeyOf(d)) < StageRank(d.stage) == Rank(batch.stages, KeyOf(d)))
      && forall other: (int, Scope) | other != KeyOf(d) :: Rank(batch.stages, other) == Rank(stages, other)
  {
  }

  /** Over a whole run no stage ever falls. */
  lemma {:induction false} RankNeverFalls(stages: Stages, ds: seq<Decision>, namespace: Namespace, i: nat,
                                          key: (int, Scope))
    requires i <= |ds|
    ensures Rank(RunDecisions(stages, ds[..i], namespace).stages,
                 key) <= Rank(RunDecisions(stages, ds, namespace).stages, key)
  {
    hide Decide;
    var n := |ds| - 1;
    if i == |ds| {
      assert ds[..i] == ds;
    } else {
      assert ds[..n][..i] == ds[..i];
      RankNeverFalls(stages, ds[..n], namespace, i, key);
      StagesOnlyAdvance(RunDecisions(stages, ds[..n], namespace).stages, ds[n], namespace);
    }
  }

  lemma SuccessRaises(stages: Stages, ds: seq<Decision>, namespace: Namespace, i: nat)
    requires i < |ds| && Succeeds(stages, ds, namespace, i)
    ensures Rank(RunDecisions(stages, ds[..i], namespace).stages, KeyOf(ds[i])) < StageRank(ds[i].stage)
    ensures Rank(RunDecisions(stages, ds[..i + 1], namespace).stages, KeyOf(ds[i])) == StageRank(ds[i].stage)
  {
    hide Decide;
    assert ds[..i + 1][..i] == ds[..i];
    StagesOnlyAdvance(RunDecisions(stages, ds[..i], namespace).stages, ds[i], namespace);
  }

  /** In every sequence of decisions, from every state: two that store for the same choice and scope are
      the tool-call stage and then the final stage. So no stage is stored twice, and nothing follows the
      final one. */
  lemma SuccessesAdvance(stages: Stages, ds: seq<Decision>, namespace: Namespace, i: nat, k: nat)
    requires i < k < |ds| && KeyOf(ds[i]) == KeyOf(ds[k])
    requires Succeeds(stages, ds, namespace, i) && Succeeds(stages, ds, namespace, k)
    ensures ds[i].stage == ToolCallStage && ds[k].stage == FinalStage
  {
    hide RunDecisions, Succeeds;
    SuccessRaises(stages, ds, namespace, i);
    SuccessRaises(stages, ds, namespace, k);
    assert ds[..k][..i + 1] == ds[..i + 1];
    RankNeverFalls(stages, ds[..k], namespace, i + 1, KeyOf(ds[i]));
  }

  // ----- The decisions of a pass, a round and a stream -----

  lemma {:induction false} RunConcat(stages: Stages, a: seq<Decision>, b: seq<Decision>, namespace: Namespace)
    ensures var x := RunDecisions(stages, a, namespace); var y := RunDecisions(x.stages, b, namespace);
      RunDecisions(stages, a + b, namespace) == Batch(y.stages, x.ops + y.ops)
  {
    hide Decide;
    if b == [] {
      assert a + b == a;
    } else {
      assert (a + b)[..|a + b| - 1] == a + b[..|b| - 1];
      RunConcat(stages, a, b[..|b| - 1], namespace);
    }
  }

  function ReadyDecision(j: int, p: Partial, atEnd: bool, context: RecordingContext): seq<Decision> {
    if atEnd || p.finish != "" then [Decision(j, p, FinalStage, context)]
    else if HasIdentifiedToolCalls(p) then [Decision(j, p, ToolCallStage, context)]
    else []
  }

  function PassDecisions(partials: Partials, order: seq<int>, atEnd: bool, context: RecordingContext): seq<Decision> {
    if order == [] then [] else
    var n := |order| - 1;
    PassDecisions(partials, order[..n], atEnd, context)
    + ReadyDecision(order[n], PartialOf(partials, order[n]), atEnd, context)
  }

  function RoundDecisions(partials: Partials, orders: seq<seq<int>>, atEnd: bool,
                          contexts: seq<RecordingContext>): seq<Decision>
    requires |orders| == |contexts|
  {
    if contexts == [] then [] else
    var n := |contexts| - 1;
    RoundDecisions(partials, orders[..n], atEnd, contexts[..n]) + PassDecisions(partials, orders[n], atEnd, contexts[n])
  }

  ghost function StreamDecisions(chunks: seq<Chunks.Chunk>, visits: seq<seq<seq<int>>>, contexts: seq<RecordingContext>)
    : seq<Decision>
    requires VisitsFit(chunks, visits, contexts)
  {
    if chunks == [] then [] else
    var n := |chunks| - 1;
    StreamDecisions(chunks[..n], visits[..n], contexts)
    + RoundDecisions(IngestAll(map[], Chunks.Entries(chunks)), visits[n], false, contexts)
  }

  /** Every decision of a stream, the final round included. */
  ghost function AllDecisions(chunks: seq<Chunks.Chunk>, visits: Visits, contexts: seq<RecordingContext>): seq<Decision>
    requires VisitsFit(chunks, visits.chunks, contexts) && |visits.last| == |contexts|
  {
    StreamDecisions(chunks, visits.chunks, contexts)
    + RoundDecisions(IngestAll(map[], Chunks.Entries(chunks)), visits.last, true, contexts)
  }

  lemma ReadyIsRun(stages: Stages, j: int, p: Partial, atEnd: bool, context: RecordingContext, namespace: Namespace)
    ensures RunDecisions(stages, ReadyDecision(j, p, atEnd, context), namespace)
         == StoreIfReady(stages, j, p, atEnd, context, namespace)
  {
    hide StoreChoice, HasIdentifiedToolCalls;
    var ds := ReadyDecision(j, p, atEnd, context);
    if ds != [] {
      assert ds[..0] == [];
      var one := Decide(stages, ds[0], namespace);
      assert [] + one.ops == one.ops;
    }
  }

  lemma {:induction false} PassIsRun(partials: Partials, stages: Stages, order: seq<int>, atEnd: bool,
                                     context: RecordingContext,
                                     namespace: Namespace)
    ensures RunDecisions(stages, PassDecisions(partials, order, atEnd, context), namespace)
         == StorePass(partials, stages, order, atEnd, context, namespace)
  {
    hide ReadyDecision, StoreIfReady, RunDecisions;
    if order == [] {
      NothingDecided(stages, namespace);
    } else {
      var n := |order| - 1;
      var p := PartialOf(partials, order[n]);
      PassIsRun(partials, stages, order[..n], atEnd, context, namespace);
      RunConcat(stages, PassDecisions(partials, order[..n], atEnd, context),
                ReadyDecision(order[n], p, atEnd, context), namespace);
      ReadyIsRun(StorePass(partials, stages, order[..n], atEnd, context, namespace).stages, order[n], p, atEnd,
                 context, namespace);
    }
  }

  lemma NothingDecided(stages: Stages, namespace: Namespace)
    ensures RunDecisions(stages, [], namespace) == Batch(stages, [])
  {
  }

  lemma {:induction false} RoundIsRun(partials: Partials, stages: Stages, orders: seq<seq<int>>, atEnd: bool,
                                      contexts: seq<RecordingContext>, namespace: Namespace)
    requires |orders| == |contexts|
    ensures RunDecisions(stages, RoundDecisions(partials, orders, atEnd, contexts), namespace)
         == OrderedRounds(partials, stages, orders, atEnd, contexts, namespace)
  {
    hide PassDecisions, StorePass, RunDecisions;
    if contexts == [] {
      NothingDecided(stages, namespace);
    } else {
      var n := |contexts| - 1;
      RoundIsRun(partials, stages, orders[..n], atEnd, contexts[..n], namespace);
      RunConcat(stages, RoundDecisions(partials, orders[..n], atEnd, contexts[..n]),
                PassDecisions(partials, orders[n], atEnd, contexts[n]), namespace);
      PassIsRun(partials, OrderedRounds(partials, stages, orders[..n], atEnd, contexts[..n], namespace).stages,
                orders[n], atEnd,
                contexts[n], namespace);
    }
  }

  lemma {:induction false} StreamIsRun(chunks: seq<Chunks.Chunk>, visits: seq<seq<seq<int>>>,
                                       contexts: seq<RecordingContext>,
                                       namespace: Namespace)
    requires VisitsFit(chunks, visits, contexts)
    ensures var s := OrderedStreamed(chunks, visits, contexts, namespace);
      RunDecisions(map[], StreamDecisions(chunks, visits, contexts), namespace) == Batch(s.stages, s.ops)
  {
    hide RoundDecisions, OrderedRounds, RunDecisions, IngestAll;
    if chunks == [] {
      NothingDecided(map[], namespace);
    } else {
      var n := |chunks| - 1;
      StreamIsRun(chunks[..n], visits[..n], contexts, namespace);
      OrderedPartials(chunks, visits, contexts, namespace);
      var before := OrderedStreamed(chunks[..n], visits[..n], contexts, namespace);
      var partials := IngestAll(map[], Chunks.Entries(chunks));
      RunConcat(map[], StreamDecisions(chunks[..n], visits[..n], contexts),
                RoundDecisions(partials, visits[n], false, contexts),
                namespace);
      RoundIsRun(partials, before.stages, visits[n], false, contexts, namespace);
    }
  }

  /** The decisions of a stream make exactly its writes, for any number of choices and any visiting orders. */
  lemma DecisionsMakeTheWrites(chunks: seq<Chunks.Chunk>, visits: Visits, contexts: seq<RecordingContext>,
                               namespace: Namespace)
    requires VisitsFit(chunks, visits.chunks, contexts) && |visits.last| == |contexts|
    ensures RunDecisions(map[], AllDecisions(chunks, visits, contexts), namespace).ops
         == OrderedOps(chunks, visits, contexts, namespace)
  {
    hide RoundDecisions, OrderedRounds, RunDecisions, IngestAll, OrderedStreamed, StreamDecisions;
    var s := OrderedStreamed(chunks, visits.chunks, contexts, namespace);
    StreamIsRun(chunks, visits.chunks, contexts, namespace);
    OrderedPartials(chunks, visits.chunks, contexts, namespace);
    RunConcat(map[], StreamDecisions(chunks, visits.chunks, contexts),
              RoundDecisions(s.partials, visits.last, true, contexts),
              namespace);
    RoundIsRun(s.partials, s.stages, visits.last, true, contexts, namespace);
  }

  /** Over a whole stream of any number of choices, visited in any order: for each choice and scope at most
      one tool-call store and at most one final store succeed, the tool-call store first. */
  lemma EachStageIsStoredOnce(chunks: seq<Chunks.Chunk>, visits: Visits, contexts: seq<RecordingContext>,
                              namespace: Namespace,
                              i: nat, k: nat)
    requires VisitsFit(chunks, visits.chunks, contexts) && |visits.last| == |contexts|
    requires var ds := AllDecisions(chunks, visits, contexts);
      && i < k < |ds| && KeyOf(ds[i]) == KeyOf(ds[k])
      && Succeeds(map[], ds, namespace, i) && Succeeds(map[], ds, namespace, k)
    ensures var ds := AllDecisions(chunks, visits, contexts);
      && ds[i].stage == ToolCallStage && ds[k].stage == FinalStage
      && RunDecisions(map[], ds, namespace).ops == OrderedOps(chunks, visits, contexts, namespace)
  {
    hide AllDecisions, RunDecisions, Succeeds, OrderedOps;
    SuccessesAdvance(map[], AllDecisions(chunks, visits, contexts), namespace, i, k);
    DecisionsMakeTheWrites(chunks, visits, contexts, namespace);
  }
}
