/** The accumulator is a per-choice, per-slot fold: interleaving does not matter. */
module AccumulatorFold {
  import opened Messages
  import opened Accumulator
  import Chunks

  // ----- Choices are independent -----

  function Fold(p: Partial, entries: seq<Chunks.Choice>): Partial {
    if entries == [] then p else Ingest(Fold(p, entries[..|entries| - 1]), entries[|entries| - 1])
  }

  lemma FoldAppend(p: Partial, entries: seq<Chunks.Choice>, entry: Chunks.Choice)
    ensures Fold(p, entries + [entry]) == Ingest(Fold(p, entries), entry)
    ensures Fold(p, entries + []) == Fold(p, entries)
  {
    assert (entries + [entry])[..|entries|] == entries;
    assert entries + [] == entries;
  }

  /** What is accumulated for a choice is the fold of that choice's own entries. */
  lemma {:induction false} ChoiceIsOwnFold(partials: Partials, choices: seq<Chunks.Choice>, j: int)
    ensures PartialOf(IngestAll(partials, choices), j) == Fold(PartialOf(partials, j), Chunks.Own(choices, j))
    ensures j in IngestAll(partials, choices) <==> j in partials || Chunks.Own(choices, j) != []
  {
    if choices != [] {
      var n := |choices| - 1;
      ChoiceIsOwnFold(partials, choices[..n], j);
      FoldAppend(PartialOf(partials, j), Chunks.Own(choices[..n], j), choices[n]);
    }
  }

  /** Entries of different choices commute: only each choice's own order matters. */
  lemma InterleavingIsIrrelevant(partials: Partials, a: seq<Chunks.Choice>, b: seq<Chunks.Choice>)
    requires forall j :: Chunks.Own(a, j) == Chunks.Own(b, j)
    ensures IngestAll(partials, a) == IngestAll(partials, b)
  {
    var x, y := IngestAll(partials, a), IngestAll(partials, b);
    forall j: int
      ensures j in x <==> j in y
      ensures j in x ==> x[j] == y[j]
    {
      ChoiceIsOwnFold(partials, a, j);
      ChoiceIsOwnFold(partials, b, j);
    }
  }

  /** The message that is accumulated for choice `j` from an empty start. */
  function Assembled(entries: seq<Chunks.Choice>, j: int): Message {
    ToMessage(PartialOf(IngestAll(map[], entries), j))
  }

  // ----- Text is concatenated in order -----

  function ContentOf(entry: Chunks.Choice): string {
    if entry.delta.Some? && entry.delta.value.content.Given? then entry.delta.value.content.text else ""
  }

  function ReasoningOf(entry: Chunks.Choice): Option<string> {
    if entry.delta.Some? then entry.delta.value.reasoning else None
  }

  function ToolDeltasOf(entry: Chunks.Choice): seq<Chunks.ToolDelta> {
    if entry.delta.Some? then entry.delta.value.toolCalls.GetOr([]) else []
  }

  function Contents(entries: seq<Chunks.Choice>): string {
    if entries == [] then "" else Contents(entries[..|entries| - 1]) + ContentOf(entries[|entries| - 1])
  }

  function Reasonings(entries: seq<Chunks.Choice>): string {
    if entries == [] then ""
    else Reasonings(entries[..|entries| - 1]) + ReasoningOf(entries[|entries| - 1]).GetOr("")
  }

  function ToolDeltas(entries: seq<Chunks.Choice>): seq<Chunks.ToolDelta> {
    if entries == [] then [] else ToolDeltas(entries[..|entries| - 1]) + ToolDeltasOf(entries[|entries| - 1])
  }

  /** The last role given, if any. */
  function LastRole(entries: seq<Chunks.Choice>): Role {
    if entries == [] then Assistant else
    var delta := entries[|entries| - 1].delta;
    var role := if delta.Some? then delta.value.role.GetOr(Unset) else Unset;
    if role != Unset then role else LastRole(entries[..|entries| - 1])
  }

  /** The last finish reason given, or none. */
  function LastFinish(entries: seq<Chunks.Choice>): string {
    if entries == [] then "" else
    entries[|entries| - 1].finish.GetOr(LastFinish(entries[..|entries| - 1]))
  }

  lemma {:induction false} MergeAllConcat(slots: seq<ToolCall>, a: seq<Chunks.ToolDelta>, b: seq<Chunks.ToolDelta>)
    ensures MergeAll(slots, a + b) == MergeAll(MergeAll(slots, a), b)
  {
    if b == [] {
      assert a + b == a;
    } else {
      assert (a + b)[..|a + b| - 1] == a + b[..|b| - 1];
      MergeAllConcat(slots, a, b[..|b| - 1]);
    }
  }

  lemma IngestFields(p: Partial, entry: Chunks.Choice)
    ensures var next := Ingest(p, entry);
      && next.content == p.content + ContentOf(entry)
      && next.reasoning.GetOr("") == p.reasoning.GetOr("") + ReasoningOf(entry).GetOr("")
      && (next.reasoning.Some? <==> p.reasoning.Some? || ReasoningOf(entry).Some?)
      && next.role == (var role := if entry.delta.Some? then entry.delta.value.role.GetOr(Unset) else Unset;
                       if role != Unset then role else p.role)
      && next.finish == entry.finish.GetOr(p.finish)
  {
    hide MergeAll;
    assert p.content + "" == p.content;
    assert p.reasoning.GetOr("") + "" == p.reasoning.GetOr("");
  }

  /** Content and reasoning are the in-order concatenation of the fragments, reasoning is present once
      any fragment is, even an empty one, and role and finish reason are the last ones given. */
  lemma {:induction false} FoldConcatenates(entries: seq<Chunks.Choice>)
    ensures var p := Fold(FRESH, entries);
      && p.content == Contents(entries)
      && p.reasoning.GetOr("") == Reasonings(entries)
      && (p.reasoning.Some? <==> exists e :: e in entries && ReasoningOf(e).Some?)
      && p.role == LastRole(entries) && p.finish == LastFinish(entries)
  {
    hide Ingest, ContentOf, ReasoningOf;
    if entries != [] {
      var n := |entries| - 1;
      FoldConcatenates(entries[..n]);
      IngestFields(Fold(FRESH, entries[..n]), entries[n]);
      assert forall e :: e in entries <==> e in entries[..n] || e == entries[n];
    }
  }

  /** The tool-call slots are what merging all fragments in order gives. */
  lemma {:induction false} FoldMerges(entries: seq<Chunks.Choice>)
    ensures Fold(FRESH, entries).toolCalls == MergeAll([], ToolDeltas(entries))
  {
    if entries != [] {
      var n := |entries| - 1;
      FoldMerges(entries[..n]);
      MergeAllConcat([], ToolDeltas(entries[..n]), ToolDeltasOf(entries[n]));
    }
  }

  // ----- Slots -----

  /** One more than the highest slot index used; a fragment without an index opens the next slot. */
  function SlotCount(deltas: seq<Chunks.ToolDelta>): nat {
    if deltas == [] then 0 else
    var before := SlotCount(deltas[..|deltas| - 1]);
    var i := deltas[|deltas| - 1].index.GetOr(before);
    if i < before then before else i + 1
  }

  /** The slot that fragment `k` belongs to. */
  function SlotOf(deltas: seq<Chunks.ToolDelta>, k: nat): nat
    requires k < |deltas|
  {
    deltas[k].index.GetOr(SlotCount(deltas[..k]))
  }

  function NameFragment(d: Chunks.ToolDelta): string {
    if d.function_.Some? then d.function_.value.name.GetOr("") else ""
  }

  function ArgumentsFragment(d: Chunks.ToolDelta): string {
    if d.function_.Some? then d.function_.value.arguments.GetOr("") else ""
  }

  /** The concatenation of a slot's own name fragments. */
  function SlotName(deltas: seq<Chunks.ToolDelta>, i: nat): string {
    if deltas == [] then "" else
    var n := |deltas| - 1;
    var before := SlotName(deltas[..n], i);
    if SlotOf(deltas, n) == i then before + NameFragment(deltas[n]) else before
  }

  /** The concatenation of a slot's own argument fragments. */
  function SlotArguments(deltas: seq<Chunks.ToolDelta>, i: nat): string {
    if deltas == [] then "" else
    var n := |deltas| - 1;
    var before := SlotArguments(deltas[..n], i);
    if SlotOf(deltas, n) == i then before + ArgumentsFragment(deltas[n]) else before
  }

  /** The last id given to a slot, null included. */
  function SlotId(deltas: seq<Chunks.ToolDelta>, i: nat): Field {
    if deltas == [] then Absent else
    var n := |deltas| - 1;
    if SlotOf(deltas, n) == i && !deltas[n].id.Absent? then deltas[n].id else SlotId(deltas[..n], i)
  }

  /** The last type given to a slot, null included; every slot starts as a function call. */
  function SlotKind(deltas: seq<Chunks.ToolDelta>, i: nat): Option<string> {
    if deltas == [] then Some("function") else
    var n := |deltas| - 1;
    if SlotOf(deltas, n) != i || deltas[n].kind.Absent? then SlotKind(deltas[..n], i)
    else if deltas[n].kind.Nil? then None else Some(deltas[n].kind.text)
  }

  /** The highest slot used is the last one, and every fragment falls into a slot. */
  lemma {:induction false} SlotCountIsMax(deltas: seq<Chunks.ToolDelta>)
    ensures forall k: nat | k < |deltas| :: SlotOf(deltas, k) < SlotCount(deltas)
    ensures deltas != [] ==> exists k: nat :: k < |deltas| && SlotOf(deltas, k) + 1 == SlotCount(deltas)
  {
    if deltas != [] {
      var n, before := |deltas| - 1, deltas[..|deltas| - 1];
      SlotCountIsMax(before);
      forall k: nat | k < n
        ensures SlotOf(before, k) == SlotOf(deltas, k)
      {
        assert before[..k] == deltas[..k];
      }
      assert SlotOf(deltas, n) == deltas[n].index.GetOr(SlotCount(before));
      if before != [] {
        var k: nat :| k < |before| && SlotOf(before, k) + 1 == SlotCount(before);
        assert SlotOf(deltas, k) == SlotOf(before, k);
      }
    }
  }

  /** Slot `i` is described by its own fragments: name and arguments are their in-order
      concatenation, and id and type are the last ones given. */
  ghost predicate IsOwnFold(slot: ToolCall, deltas: seq<Chunks.ToolDelta>, i: nat) {
    && slot.name == Some(SlotName(deltas, i))
    && slot.arguments == Some(SlotArguments(deltas, i))
    && slot.id == SlotId(deltas, i)
    && slot.kind == SlotKind(deltas, i)
  }

  lemma OneFragment(slot: ToolCall, deltas: seq<Chunks.ToolDelta>, i: nat)
    requires deltas != [] && IsOwnFold(slot, deltas[..|deltas| - 1], i)
    ensures var n := |deltas| - 1;
      IsOwnFold(if SlotOf(deltas, n) == i then ExtendSlot(slot, deltas[n]) else slot, deltas, i)
  {
    var before := deltas[..|deltas| - 1];
    assert SlotName(before, i) + "" == SlotName(before, i);
    assert SlotArguments(before, i) + "" == SlotArguments(before, i);
  }

  /** Every slot is the fold of its own fragments, and the slots are exactly those up to the highest
      index seen. */
  lemma {:induction false} SlotsAreOwnFolds(deltas: seq<Chunks.ToolDelta>)
    ensures |MergeAll([], deltas)| == SlotCount(deltas)
    ensures forall i: nat | i < |MergeAll([], deltas)| :: IsOwnFold(MergeAll([], deltas)[i], deltas, i)
  {
    hide IsOwnFold, ExtendSlot;
    if deltas != [] {
      var n, before := |deltas| - 1, deltas[..|deltas| - 1];
      SlotsAreOwnFolds(before);
      var slots := MergeAll([], before);
      assert SlotIndex(slots, deltas[n]) == SlotOf(deltas, n);
      var grown := Grow(slots, SlotOf(deltas, n) + 1);
      forall i: nat | i < |MergeAll([], deltas)|
        ensures IsOwnFold(MergeAll([], deltas)[i], deltas, i)
      {
        if i >= |slots| {
          UnusedSlotIsEmpty(before, i);
        }
        OneFragment(grown[i], deltas, i);
      }
    }
  }

  lemma {:induction false} UnusedSlotIsEmpty(deltas: seq<Chunks.ToolDelta>, i: nat)
    requires i >= SlotCount(deltas)
    ensures IsOwnFold(EMPTY_SLOT, deltas, i)
  {
    if deltas != [] {
      UnusedSlotIsEmpty(deltas[..|deltas| - 1], i);
    }
  }

  /** The whole accumulator, from an empty start and for any interleaving. */
  lemma AccumulatedChoice(choices: seq<Chunks.Choice>, j: int)
    ensures var own := Chunks.Own(choices, j); var p := PartialOf(IngestAll(map[], choices), j);
      && p.content == Contents(own)
      && p.reasoning.GetOr("") == Reasonings(own)
      && (p.reasoning.Some? <==> exists e :: e in own && ReasoningOf(e).Some?)
      && p.role == LastRole(own) && p.finish == LastFinish(own)
      && |p.toolCalls| == SlotCount(ToolDeltas(own))
      && forall i: nat | i < |p.toolCalls| :: IsOwnFold(p.toolCalls[i], ToolDeltas(own), i)
  {
    hide IsOwnFold;
    var own := Chunks.Own(choices, j);
    ChoiceIsOwnFold(map[], choices, j);
    FoldConcatenates(own);
    FoldMerges(own);
    SlotsAreOwnFolds(ToolDeltas(own));
  }
}
