/** When a choice is stored before the end of its stream, told from what has arrived of it. */
module EarlyStore {
  import opened Messages
  import opened Keys
  import opened ReasoningStore
  import opened Prepare
  import opened Recording
  import opened Accumulator
  import opened AccumulatorFold
  import Chunks

  /** Some fragment of reasoning has arrived, even an empty one. */
  ghost predicate HasReasoned(own: seq<Chunks.Choice>) {
    exists e :: e in own && ReasoningOf(e).Some?
  }

  /** There is a tool call, and the last id given to each is a text that is not empty. */
  ghost predicate AllIdentified(deltas: seq<Chunks.ToolDelta>) {
    SlotCount(deltas) > 0 && forall i: nat | i < SlotCount(deltas) :: HasId(deltas, i)
  }

  predicate HasId(deltas: seq<Chunks.ToolDelta>, i: nat) {
    match SlotId(deltas, i)
    case Absent => false
    case Nil => false
    case Given(text) => |text| > 0
  }

  /** The message of a choice, field by field. */
  lemma AssembledMessage(entries: seq<Chunks.Choice>, j: int)
    ensures var own, message := Chunks.Own(entries, j), Assembled(entries, j);
      && message.role == LastRole(own) && message.content == Some(Contents(own))
      && message.reasoning == (if HasReasoned(own) then Some(Reasonings(own)) else None)
      && message.name == message.toolCallId == None && message.prefix == None
      && |message.toolCalls| == SlotCount(ToolDeltas(own))
      && forall i: nat | i < |message.toolCalls| :: IsOwnFold(message.toolCalls[i], ToolDeltas(own), i)
  {
    hide IsOwnFold, IngestAll;
    AccumulatedChoice(entries, j);
  }

  lemma IdentifiedIff(entries: seq<Chunks.Choice>, j: int)
    ensures var own := Chunks.Own(entries, j);
      HasIdentifiedToolCalls(PartialOf(IngestAll(map[], entries), j))
      <==> HasReasoned(own) && AllIdentified(ToolDeltas(own))
  {
    hide IngestAll;
    AccumulatedChoice(entries, j);
    var calls, deltas := PartialOf(IngestAll(map[], entries), j).toolCalls, ToolDeltas(Chunks.Own(entries, j));
    forall i: nat | i < |calls|
      ensures HasId(deltas, i) <==> calls[i].id.Given? && calls[i].id.text != ""
    {
      assert IsOwnFold(calls[i], deltas, i);
    }
  }

  /** What lets a pass store a choice: it is finished, or reasoning and all ids are there; and this stage has not
      been stored before under the scope. */
  ghost predicate IsDue(own: seq<Chunks.Choice>, atEnd: bool, stored: Option<Stage>) {
    if atEnd || LastFinish(own) != "" then stored != Some(FinalStage)
    else AllIdentified(ToolDeltas(own)) && stored == None
  }

  function StageOf(stages: Stages, j: int, scope: Scope): Option<Stage> {
    if (j, scope) in stages then Some(stages[(j, scope)]) else None
  }

  /** One decision for a choice: its writes under the keys of its message, and the stage raised, or nothing. */
  lemma OneDecision(stages: Stages, j: int, p: Partial, stage: Stage, context: RecordingContext, namespace: Namespace)
    ensures var one := StoreChoice(stages, j, p, stage, context, namespace);
      var stored := StageOf(stages, j, context.scope);
      var free := if stage == FinalStage then stored != Some(FinalStage) else stored == None;
      if free && p.role == Assistant && p.reasoning.Some?
      then && one.ops == StoreOps(ToMessage(p), context.scope, Some(namespace), context.messages)
           && one.ops != [] && one.stages == stages[(j, context.scope) := stage]
      else one == Batch(stages, [])
  {
    hide MessageKeys;
  }

  /** What a pass writes for one choice: all keys of its message when it is due, has reasoned and is an assistant
      message, and otherwise nothing. */
  lemma StoredWhenDue(entries: seq<Chunks.Choice>, j: int, stages: Stages, atEnd: bool, context: RecordingContext,
                      namespace: Namespace)
    ensures var own := Chunks.Own(entries, j);
      var one := StoreIfReady(stages, j, PartialOf(IngestAll(map[], entries), j), atEnd, context, namespace);
      if LastRole(own) == Assistant && HasReasoned(own) && IsDue(own, atEnd, StageOf(stages, j, context.scope))
      then && one.ops == StoreOps(Assembled(entries, j), context.scope, Some(namespace), context.messages)
           && one.ops != []
           && (forall s: (int, Scope) :: s != (j, context.scope) ==>
                 (s in one.stages <==> s in stages) && (s in stages ==> one.stages[s] == stages[s]))
      else one == Batch(stages, [])
  {
    hide IngestAll, AllIdentified, HasIdentifiedToolCalls, StoreChoice, StoreOps, IsOwnFold, HasReasoned, ToMessage;
    var p := PartialOf(IngestAll(map[], entries), j);
    RoleAndReasoning(entries, j);
    IdentifiedIff(entries, j);
    OneDecision(stages, j, p, FinalStage, context, namespace);
    OneDecision(stages, j, p, ToolCallStage, context, namespace);
  }

  lemma RoleAndReasoning(entries: seq<Chunks.Choice>, j: int)
    ensures var own, p := Chunks.Own(entries, j), PartialOf(IngestAll(map[], entries), j);
      p.role == LastRole(own) && p.finish == LastFinish(own) && (p.reasoning.Some? <==> HasReasoned(own))
  {
    hide IngestAll, IsOwnFold;
    AccumulatedChoice(entries, j);
  }

  // ----- A pass over all choices -----

  /** Choices that are not visited keep their stage. */
  lemma {:induction false} UnvisitedStage(entries: seq<Chunks.Choice>, j: int, stages: Stages, order: seq<int>,
                                          atEnd: bool, context: RecordingContext, namespace: Namespace)
    requires j !in order
    ensures var after := StorePass(IngestAll(map[], entries), stages, order, atEnd, context, namespace).stages;
      StageOf(after, j, context.scope) == StageOf(stages, j, context.scope)
  {
    hide StoreIfReady, IsDue, HasReasoned, IngestAll;
    if order != [] {
      var n := |order| - 1;
      UnvisitedStage(entries, j, stages, order[..n], atEnd, context, namespace);
      var before := StorePass(IngestAll(map[], entries), stages, order[..n], atEnd, context, namespace);
      StoredWhenDue(entries, order[n], before.stages, atEnd, context, namespace);
    }
  }

  lemma PassStep(partials: Partials, stages: Stages, order: seq<int>, j: int, atEnd: bool, context: RecordingContext,
                 namespace: Namespace)
    ensures var x := StorePass(partials, stages, order, atEnd, context, namespace);
      var one := StoreIfReady(x.stages, j, PartialOf(partials, j), atEnd, context, namespace);
      StorePass(partials, stages, order + [j], atEnd, context, namespace) == Batch(one.stages, x.ops + one.ops)
  {
    hide StoreIfReady;
    assert (order + [j])[..|order|] == order;
  }

  lemma NoVisits(partials: Partials, stages: Stages, atEnd: bool, context: RecordingContext, namespace: Namespace)
    ensures StorePass(partials, stages, [], atEnd, context, namespace) == Batch(stages, [])
  {
  }

  lemma {:induction false} PassConcat(partials: Partials, stages: Stages, a: seq<int>, b: seq<int>, atEnd: bool,
                                      context: RecordingContext, namespace: Namespace)
    ensures var x := StorePass(partials, stages, a, atEnd, context, namespace);
      var y := StorePass(partials, x.stages, b, atEnd, context, namespace);
      StorePass(partials, stages, a + b, atEnd, context, namespace) == Batch(y.stages, x.ops + y.ops)
  {
    hide StoreIfReady, StorePass;
    var x := StorePass(partials, stages, a, atEnd, context, namespace);
    if b == [] {
      NoVisits(partials, x.stages, atEnd, context, namespace);
      assert a + b == a && x.ops + [] == x.ops;
    } else {
      var n := |b| - 1;
      var j := b[n];
      PassConcat(partials, stages, a, b[..n], atEnd, context, namespace);
      PassStep(partials, stages, a + b[..n], j, atEnd, context, namespace);
      PassStep(partials, x.stages, b[..n], j, atEnd, context, namespace);
      assert b[..n] + [j] == b && a + b[..n] + [j] == a + b;
    }
  }

  lemma OneVisit(partials: Partials, stages: Stages, j: int, atEnd: bool, context: RecordingContext,
                 namespace: Namespace)
    ensures StorePass(partials, stages, [j], atEnd, context, namespace)
         == StoreIfReady(stages, j, PartialOf(partials, j), atEnd, context, namespace)
  {
    hide StoreIfReady;
    assert [j][..0] == [];
    var one := StoreIfReady(stages, j, PartialOf(partials, j), atEnd, context, namespace);
    assert [] + one.ops == one.ops;
  }

  lemma VisitOf(order: seq<int>, keys: set<int>, j: int) returns (k: nat)
    requires Enumerates(order, keys) && j in keys
    ensures k < |order| && order == order[..k] + [j] + order[k + 1..] && j !in order[..k]
  {
    k :| k < |order| && order[k] == j;
    assert order == order[..k] + [order[k]] + order[k + 1..];
  }

  /** A pass that visits a due choice writes every key of its message with all the reasoning so far, wherever it
      visits it. */
  lemma PassStoresDue(entries: seq<Chunks.Choice>, j: int, stages: Stages, order: seq<int>, atEnd: bool,
                      context: RecordingContext, namespace: Namespace)
    requires Enumerates(order, IngestAll(map[], entries).Keys)
    requires var own := Chunks.Own(entries, j);
      LastRole(own) == Assistant && HasReasoned(own) && IsDue(own, atEnd, StageOf(stages, j, context.scope))
    ensures var ops := StorePass(IngestAll(map[], entries), stages, order, atEnd, context, namespace).ops;
      forall key | key in MessageKeys(Assembled(entries, j), context.scope, Some(namespace), context.messages) ::
        Put(key, Reasonings(Chunks.Own(entries, j))) in ops
  {
    hide StoreIfReady, StorePass, IngestAll, MessageKeys, IsDue, StoreOps;
    var partials, message := IngestAll(map[], entries), Assembled(entries, j);
    ChoiceIsOwnFold(map[], entries, j);
    var k := VisitOf(order, partials.Keys, j);
    var before := StorePass(partials, stages, order[..k], atEnd, context, namespace);
    UnvisitedStage(entries, j, stages, order[..k], atEnd, context, namespace);
    StoredWhenDue(entries, j, before.stages, atEnd, context, namespace);
    OneVisit(partials, before.stages, j, atEnd, context, namespace);
    PassConcat(partials, stages, order[..k], [j], atEnd, context, namespace);
    PassConcat(partials, stages, order[..k] + [j], order[k + 1..], atEnd, context, namespace);
    AssembledMessage(entries, j);
    StoreOpsContents(message, context.scope, Some(namespace), context.messages);
  }

  /** Before the finish: reasoning, an assistant role, at least one tool call, an id for each, and nothing stored
      yet under the scope make a pass write every key of the message. */
  lemma IdentifiedCallsAreStored(entries: seq<Chunks.Choice>, j: int, stages: Stages, order: seq<int>,
                                 context: RecordingContext, namespace: Namespace)
    requires Enumerates(order, IngestAll(map[], entries).Keys)
    requires var own := Chunks.Own(entries, j); var deltas := ToolDeltas(own);
      && HasReasoned(own) && LastRole(own) == Assistant && LastFinish(own) == ""
      && SlotCount(deltas) > 0 && (forall i: nat | i < SlotCount(deltas) :: HasId(deltas, i))
    requires (j, context.scope) !in stages
    ensures var ops := StorePass(IngestAll(map[], entries), stages, order, false, context, namespace).ops;
      forall key | key in MessageKeys(Assembled(entries, j), context.scope, Some(namespace), context.messages) ::
        Put(key, Reasonings(Chunks.Own(entries, j))) in ops
  {
    hide StorePass, IngestAll, MessageKeys, HasId, HasReasoned;
    PassStoresDue(entries, j, stages, order, false, context, namespace);
  }

  /** Before the finish: as long as reasoning, the tool calls or one of their ids is missing, a pass does exactly
      what it would do without the choice. */
  lemma UnidentifiedCallsAreNot(entries: seq<Chunks.Choice>, j: int, stages: Stages, before: seq<int>,
                                after: seq<int>, context: RecordingContext, namespace: Namespace)
    requires var own := Chunks.Own(entries, j); var deltas := ToolDeltas(own);
      && LastFinish(own) == ""
      && (!HasReasoned(own) || SlotCount(deltas) == 0 || exists i: nat :: i < SlotCount(deltas) && !HasId(deltas, i))
    ensures StorePass(IngestAll(map[], entries), stages, before + [j] + after, false, context, namespace)
         == StorePass(IngestAll(map[], entries), stages, before + after, false, context, namespace)
  {
    hide StorePass, IngestAll, HasId, HasReasoned, StoreIfReady;
    var partials := IngestAll(map[], entries);
    var x := StorePass(partials, stages, before, false, context, namespace);
    StoredWhenDue(entries, j, x.stages, false, context, namespace);
    OneVisit(partials, x.stages, j, false, context, namespace);
    PassConcat(partials, stages, before, [j], false, context, namespace);
    PassConcat(partials, stages, before + [j], after, false, context, namespace);
    PassConcat(partials, stages, before, after, false, context, namespace);
    assert x.ops + [] == x.ops;
  }
}
