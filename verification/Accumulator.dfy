/** Folding interleaved stream deltas into messages, and recording them in two stages. */
module Accumulator {
  import opened Messages
  import opened Keys
  import opened ReasoningStore
  import opened Prepare
  import Chunks

  /** What has been accumulated for one choice. */
  datatype Partial = Partial(
    role: Role,
    content: string,
    reasoning: Option<string>,
    toolCalls: seq<ToolCall>,
    finish: string)

  const FRESH := Partial(Assistant, "", None, [], "")

  const EMPTY_SLOT := ToolCall(Absent, Some("function"), Some(""), Some(""))

  // ----- Merging deltas -----

  function Grow(slots: seq<ToolCall>, n: nat): (r: seq<ToolCall>)
    ensures |r| == if |slots| < n then n else |slots|
    ensures forall i | 0 <= i < |slots| :: r[i] == slots[i]
    ensures forall i | |slots| <= i < |r| :: r[i] == EMPTY_SLOT
  {
    if |slots| < n then slots + seq(n - |slots|, _ => EMPTY_SLOT) else slots
  }

  function KindAfter(kind: Option<string>, given: Field): Option<string> {
    match given
    case Absent => kind
    case Nil => None
    case Given(text) => Some(text)
  }

  function ExtendSlot(slot: ToolCall, d: Chunks.ToolDelta): ToolCall {
    var named := slot.(id := if d.id.Absent? then slot.id else d.id, kind := KindAfter(slot.kind, d.kind));
    if d.function_.None? then named else
    named.(name := Some(slot.name.GetOr("") + d.function_.value.name.GetOr("")),
           arguments := Some(slot.arguments.GetOr("") + d.function_.value.arguments.GetOr("")))
  }

  function SlotIndex(slots: seq<ToolCall>, d: Chunks.ToolDelta): nat {
    d.index.GetOr(|slots|)
  }

  function MergeOne(slots: seq<ToolCall>, d: Chunks.ToolDelta): (r: seq<ToolCall>) {
    var i := SlotIndex(slots, d);
    var grown := Grow(slots, i + 1);
    grown[i := ExtendSlot(grown[i], d)]
  }

  function MergeAll(slots: seq<ToolCall>, deltas: seq<Chunks.ToolDelta>): seq<ToolCall> {
    if deltas == [] then slots
    else MergeOne(MergeAll(slots, deltas[..|deltas| - 1]), deltas[|deltas| - 1])
  }

  function Ingest(p: Partial, choice: Chunks.Choice): Partial {
    var finished := if choice.finish.Some? then p.(finish := choice.finish.value) else p;
    if choice.delta.None? then finished else
    var d := choice.delta.value;
    finished.(
      role := if d.role.Some? && d.role.value != Unset then d.role.value else p.role,
      content := if d.content.Given? then p.content + d.content.text else p.content,
      reasoning := if d.reasoning.Some? then Some(p.reasoning.GetOr("") + d.reasoning.value) else p.reasoning,
      toolCalls := MergeAll(p.toolCalls, d.toolCalls.GetOr([])))
  }

  type Partials = map<int, Partial>

  function PartialOf(partials: Partials, j: int): Partial {
    if j in partials then partials[j] else FRESH
  }

  function IngestOne(partials: Partials, choice: Chunks.Choice): Partials {
    var j := Chunks.IndexOf(choice);
    partials[j := Ingest(PartialOf(partials, j), choice)]
  }

  function IngestAll(partials: Partials, choices: seq<Chunks.Choice>): Partials {
    if choices == [] then partials
    else IngestOne(IngestAll(partials, choices[..|choices| - 1]), choices[|choices| - 1])
  }

  function ToMessage(p: Partial): Message {
    Message(p.role, Some(p.content), None, None, None, p.toolCalls, p.reasoning)
  }

  // ----- Recording -----

  datatype Stage = ToolCallStage | FinalStage

  type Stages = map<(int, Scope), Stage>

  function Rank(stages: Stages, key: (int, Scope)): nat {
    if key !in stages then 0 else StageRank(stages[key])
  }

  function StageRank(stage: Stage): nat {
    match stage case ToolCallStage => 1 case FinalStage => 2
  }

  /** Every slot has an id, there is at least one, and reasoning has been seen. */
  predicate HasIdentifiedToolCalls(p: Partial) {
    && p.reasoning.Some? && p.toolCalls != []
    && forall i | 0 <= i < |p.toolCalls| :: p.toolCalls[i].id.Given? && p.toolCalls[i].id.text != ""
  }

  datatype Batch = Batch(stages: Stages, ops: seq<Op>)

  function StoreChoice(stages: Stages, j: int, p: Partial, stage: Stage, context: RecordingContext,
                       namespace: Namespace)
    : Batch
  {
    if Rank(stages, (j, context.scope)) >= StageRank(stage) then Batch(stages, []) else
    var ops := StoreOps(ToMessage(p), context.scope, Some(namespace), context.messages);
    Batch(if ops != [] then stages[(j, context.scope) := stage] else stages, ops)
  }

  /** What one pass over the choices stores for choice `j`: everything at the end of the stream, and
      otherwise only what is ready. */
  function StoreIfReady(stages: Stages, j: int, p: Partial, atEnd: bool, context: RecordingContext,
                        namespace: Namespace)
    : Batch
  {
    if atEnd || p.finish != "" then StoreChoice(stages, j, p, FinalStage, context, namespace)
    else if HasIdentifiedToolCalls(p) then StoreChoice(stages, j, p, ToolCallStage, context, namespace)
    else Batch(stages, [])
  }

  /** One pass over the choices, in the given order. */
  function StorePass(partials: Partials, stages: Stages, order: seq<int>, atEnd: bool, context: RecordingContext,
                     namespace: Namespace): Batch
  {
    if order == [] then Batch(stages, []) else
    var n := |order| - 1;
    var before := StorePass(partials, stages, order[..n], atEnd, context, namespace);
    var one := StoreIfReady(before.stages, order[n], PartialOf(partials, order[n]), atEnd, context, namespace);
    Batch(one.stages, before.ops + one.ops)
  }

  ghost predicate Enumerates(order: seq<int>, keys: set<int>) {
    && (forall j :: j in order <==> j in keys)
    && (forall a, b | 0 <= a < b < |order| :: order[a] != order[b])
  }

  class StreamAccumulator {
    var partials: Partials
    var stages: Stages

    constructor ()
      ensures partials == map[] && stages == map[]
    {
      partials, stages := map[], map[];
    }

    method IngestChunk(choices: seq<Chunks.Choice>)
      modifies this`partials
      ensures partials == IngestAll(old(partials), choices)
    {
      hide Ingest;
      for i := 0 to |choices|
        invariant partials == IngestAll(old(partials), choices[..i])
      {
        assert choices[..i + 1][..i] == choices[..i];
        var j := choices[i].index.GetOr(0);
        var p := IngestEntry(if j in partials then partials[j] else FRESH, choices[i]);
        partials := partials[j := p];
      }
      assert choices[..|choices|] == choices;
    }

    static method IngestEntry(before: Partial, choice: Chunks.Choice) returns (p: Partial)
      ensures p == Ingest(before, choice)
    {
      p := before;
      if choice.finish.Some? {
        p := p.(finish := choice.finish.value);
      }
      if choice.delta.Some? {
        var d := choice.delta.value;
        if d.role.Some? && d.role.value != Unset {
          p := p.(role := d.role.value);
        }
        if d.content.Given? {
          p := p.(content := p.content + d.content.text);
        }
        if d.reasoning.Some? {
          p := p.(reasoning := Some(p.reasoning.GetOr("") + d.reasoning.value));
        }
        var toolCalls := MergeToolCallDeltas(p.toolCalls, d.toolCalls.GetOr([]));
        p := p.(toolCalls := toolCalls);
      }
    }

    static method MergeToolCallDeltas(slots: seq<ToolCall>,
                                      deltas: seq<Chunks.ToolDelta>) returns (merged: seq<ToolCall>)
      ensures merged == MergeAll(slots, deltas)
    {
      merged := slots;
      for i := 0 to |deltas|
        invariant merged == MergeAll(slots, deltas[..i])
      {
        assert deltas[..i + 1][..i] == deltas[..i];
        merged := MergeToolCallDelta(merged, deltas[i]);
      }
      assert deltas[..|deltas|] == deltas;
    }

    static method MergeToolCallDelta(slots: seq<ToolCall>, d: Chunks.ToolDelta) returns (merged: seq<ToolCall>)
      ensures merged == MergeOne(slots, d)
    {
      merged := slots;
      var index := |slots|;
      if d.index.Some? {
        index := d.index.value;
      }
      while |merged| <= index
        invariant |slots| <= |merged| && (|merged| <= index + 1 || merged == slots)
        invariant forall i | 0 <= i < |slots| :: merged[i] == slots[i]
        invariant forall i | |slots| <= i < |merged| :: merged[i] == EMPTY_SLOT
      {
        merged := merged + [EMPTY_SLOT];
      }
      assert merged == Grow(slots, index + 1);
      var slot := merged[index];
      if !d.id.Absent? {
        slot := slot.(id := d.id);
      }
      if !d.kind.Absent? {
        slot := slot.(kind := if d.kind.Given? then Some(d.kind.text) else None);
      }
      if d.function_.Some? {
        slot := slot.(name := Some(slot.name.GetOr("") + d.function_.value.name.GetOr("")));
        slot := slot.(arguments := Some(slot.arguments.GetOr("") + d.function_.value.arguments.GetOr("")));
      }
      merged := merged[index := slot];
    }

    method StoreChoiceAt(store: Store, j: int, p: Partial, stage: Stage, context: RecordingContext,
                         namespace: Namespace)
      returns (stored: nat)
      modifies this`stages, store
      ensures var batch := StoreChoice(old(stages), j, p, stage, context, namespace);
        && stages == batch.stages
        && store.State() == ApplyAll(store.env, old(store.State()), batch.ops)
        && stored == |batch.ops|
      ensures var key := (j, context.scope);
        stored > 0 ==> Rank(old(stages), key) < StageRank(stage) == Rank(stages, key)
    {
      if Rank(stages, (j, context.scope)) >= StageRank(stage) {
        return 0;
      }
      stored := store.StoreAssistantMessage(ToMessage(p), context.scope, Some(namespace), context.messages);
      if stored > 0 {
        stages := stages[(j, context.scope) := stage];
      }
    }

    method StoreIfReadyAt(store: Store, j: int, p: Partial, atEnd: bool, context: RecordingContext,
                          namespace: Namespace)
      returns (stored: nat)
      modifies this`stages, store
      ensures var batch := StoreIfReady(old(stages), j, p, atEnd, context, namespace);
        && stages == batch.stages
        && store.State() == ApplyAll(store.env, old(store.State()), batch.ops)
        && stored == |batch.ops|
    {
      stored := 0;
      if atEnd || p.finish != "" {
        stored := StoreChoiceAt(store, j, p, FinalStage, context, namespace);
      } else if HasIdentifiedToolCalls(p) {
        stored := StoreChoiceAt(store, j, p, ToolCallStage, context, namespace);
      }
    }

    /** StoreReadyReasoning, and with `atEnd` StoreReasoning. The choices are visited in an arbitrary
        order, which the ghost result reports. */
    method StoreReasoning(store: Store, atEnd: bool, context: RecordingContext, namespace: Namespace)
      returns (stored: nat, ghost order: seq<int>)
      modifies this`stages, store
      ensures Enumerates(order, partials.Keys)
      ensures var batch := StorePass(partials, old(stages), order, atEnd, context, namespace);
        && stages == batch.stages
        && store.State() == ApplyAll(store.env, old(store.State()), batch.ops)
        && stored == |batch.ops|
    {
      hide StoreIfReady, StorePass, ApplyAll, Enumerates;
      stored, order := 0, [];
      var remaining := partials.Keys;
      PassBegins(store.env, store.State(), partials, stages, atEnd, context, namespace);
      while remaining != {}
        invariant remaining <= partials.Keys
        invariant Enumerates(order, partials.Keys - remaining)
        invariant var batch := StorePass(partials, old(stages), order, atEnd, context, namespace);
          && stages == batch.stages
          && store.State() == ApplyAll(store.env, old(store.State()), batch.ops)
          && stored == |batch.ops|
        decreases remaining
      {
        var j := PickAny(remaining);
        assert remaining - {j} + {j} == remaining;
        remaining := remaining - {j};
        PassExtends(store.env, old(store.State()), partials, old(stages), order, j, atEnd, context, namespace);
        EnumeratesNext(order, partials.Keys, remaining, j);
        var n := StoreIfReadyAt(store, j, partials[j], atEnd, context, namespace);
        stored := stored + n;
        order := order + [j];
      }
      assert partials.Keys - remaining == partials.Keys;
    }
  }

  lemma PassBegins(env: Env, table: Table, partials: Partials, stages: Stages, atEnd: bool,
                   context: RecordingContext, namespace: Namespace)
    ensures StorePass(partials, stages, [], atEnd, context, namespace) == Batch(stages, [])
    ensures ApplyAll(env, table, []) == table
    ensures Enumerates([], {}) && partials.Keys - partials.Keys == {}
  {
  }

  lemma EnumeratesNext(order: seq<int>, keys: set<int>, remaining: set<int>, j: int)
    requires j in keys && j !in remaining && Enumerates(order, keys - (remaining + {j}))
    ensures Enumerates(order + [j], keys - remaining)
  {
  }

  lemma PassExtends(env: Env, table: Table, partials: Partials, stages: Stages, order: seq<int>, j: int, atEnd: bool,
                    context: RecordingContext, namespace: Namespace)
    ensures var before := StorePass(partials, stages, order, atEnd, context, namespace);
      var one := StoreIfReady(before.stages, j, PartialOf(partials, j), atEnd, context, namespace);
      && StorePass(partials, stages, order + [j], atEnd, context, namespace) == Batch(one.stages, before.ops + one.ops)
      && ApplyAll(env, table, before.ops + one.ops) == ApplyAll(env, ApplyAll(env, table, before.ops), one.ops)
  {
    var before := StorePass(partials, stages, order, atEnd, context, namespace);
    var one := StoreIfReady(before.stages, j, PartialOf(partials, j), atEnd, context, namespace);
    assert (order + [j])[..|order|] == order;
    ApplyAllConcat(env, table, before.ops, one.ops);
  }
}
