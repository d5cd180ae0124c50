/** Mirroring streamed reasoning into the visible content as thinking blocks. */
module Display {
  import opened Messages
  import Chunks
  import Thinking
  import opened AccumulatorFold

  // ----- One entry -----

  datatype Rewritten = Rewritten(entry: Chunks.Choice, open: bool)

  predicate Mirrors(entry: Chunks.Choice) {
    ReasoningOf(entry).GetOr("") != ""
  }

  /** What closes an open block: string content, even empty, any tool-call list, or a finish reason. */
  predicate Closes(entry: Chunks.Choice) {
    || entry.finish.Some?
    || (entry.delta.Some? && (entry.delta.value.content.Given? || entry.delta.value.toolCalls.Some?))
  }

  function RewriteEntry(collapsible: bool, open: bool, entry: Chunks.Choice): Rewritten {
    var delta := entry.delta.GetOr(Chunks.EMPTY_DELTA);
    var nowOpen := open || Mirrors(entry);
    var closes := nowOpen && Closes(entry);
    var start := if Mirrors(entry) && !open then Thinking.BlockStart(collapsible) else "";
    var reasoning := if Mirrors(entry) then start + delta.reasoning.value else start;
    var mirrored := if closes then reasoning + Thinking.BlockEnd(collapsible) else reasoning;
    var text := if delta.content.Given? then mirrored + delta.content.text else mirrored;
    var content := if Mirrors(entry) || closes then Given(text) else delta.content;
    Rewritten(entry.(delta := Some(delta.(content := content))), nowOpen && !closes)
  }

  datatype Rewriting = Rewriting(entries: seq<Chunks.Choice>, open: set<int>)

  function RewriteAll(collapsible: bool, open: set<int>, entries: seq<Chunks.Choice>): (r: Rewriting)
    ensures |r.entries| == |entries|
  {
    if entries == [] then Rewriting([], open) else
    var n := |entries| - 1;
    var before := RewriteAll(collapsible, open, entries[..n]);
    var j := Chunks.IndexOf(entries[n]);
    var one := RewriteEntry(collapsible, j in before.open, entries[n]);
    Rewriting(before.entries + [one.entry], if one.open then before.open + {j} else before.open - {j})
  }

  ghost predicate StrictlyIncreasing(s: seq<int>) {
    forall i, k | 0 <= i < k < |s| :: s[i] < s[k]
  }

  ghost predicate IsSmallest(j: int, indexes: set<int>) {
    j in indexes && forall k | k in indexes :: j <= k
  }

  lemma FindSmallest(indexes: set<int>) returns (j: int)
    requires indexes != {}
    ensures IsSmallest(j, indexes)
  {
    j := PickElement(indexes);
    if k :| k in indexes && k < j {
      ghost var rest := indexes - {j};
      assert k in rest;
      var m := FindSmallest(rest);
      assert m <= k;
      forall i | i in indexes ensures m <= i {
        if i != j {
          assert i in rest;
        }
      }
      j := m;
    }
  }

  lemma SmallestExists(indexes: set<int>)
    requires indexes != {}
    ensures exists j :: IsSmallest(j, indexes)
  {
    var j := FindSmallest(indexes);
  }

  /** A finite set of choices in ascending order. */
  ghost function Ascending(indexes: set<int>): (order: seq<int>)
    ensures StrictlyIncreasing(order)
    ensures forall j :: j in order <==> j in indexes
  {
    if indexes == {} then [] else
    SmallestExists(indexes);
    var j :| IsSmallest(j, indexes);
    var rest := Ascending(indexes - {j});
    assert forall i | 0 <= i < |rest| :: rest[i] in rest;
    [j] + rest
  }

  lemma EmptyAscending()
    ensures Ascending({}) == []
  {
  }

  lemma AscendingFrom(j: int, indexes: set<int>)
    requires IsSmallest(j, indexes)
    ensures Ascending(indexes) == [j] + Ascending(indexes - {j})
  {
    assert forall k | IsSmallest(k, indexes) :: k == j;
  }

  function ClosingEntry(collapsible: bool, j: int): Chunks.Choice {
    Chunks.Choice(Some(j), None, Some(Chunks.EMPTY_DELTA.(content := Given(Thinking.BlockEnd(collapsible)))))
  }

  function ClosingEntries(collapsible: bool, order: seq<int>): (r: seq<Chunks.Choice>)
    ensures |r| == |order| && forall i | 0 <= i < |r| :: r[i] == ClosingEntry(collapsible, order[i])
  {
    seq(|order|, i requires 0 <= i < |order| => ClosingEntry(collapsible, order[i]))
  }

  lemma ClosingAppend(collapsible: bool, order: seq<int>, j: int)
    ensures ClosingEntries(collapsible, order + [j]) == ClosingEntries(collapsible, order)
      + [ClosingEntry(collapsible, j)]
  {
    hide ClosingEntry;
  }

  /** The entries that end the stream for the choices still open. */
  ghost function FlushEntries(collapsible: bool, open: set<int>): seq<Chunks.Choice> {
    ClosingEntries(collapsible, Ascending(open))
  }

  class DisplayAdapter {
    const collapsible: bool
    var openChoices: set<int>

    constructor (collapsible: bool)
      ensures this.collapsible == collapsible && openChoices == {}
    {
      this.collapsible := collapsible;
      openChoices := {};
    }

    /** Rewrites the entries of a chunk in place. */
    method RewriteChunk(chunk: array<Chunks.Choice>)
      modifies this, chunk
      ensures Rewriting(chunk[..], openChoices) == RewriteAll(collapsible, old(openChoices), old(chunk[..]))
    {
      ghost var original := chunk[..];
      for i := 0 to chunk.Length
        invariant chunk[i..] == original[i..]
        invariant Rewriting(chunk[..i], openChoices) == RewriteAll(collapsible, old(openChoices), original[..i])
      {
        assert original[..i + 1][..i] == original[..i];
        assert chunk[i] == chunk[i..][0] == original[i];
        chunk[i] := RewriteChoice(chunk[i]);
        assert chunk[..i + 1] == chunk[..i] + [chunk[i]];
      }
      assert original[..chunk.Length] == original && chunk[..chunk.Length] == chunk[..];
    }

    method RewriteChoice(entry: Chunks.Choice) returns (out: Chunks.Choice)
      modifies this
      ensures var j := Chunks.IndexOf(entry); var one := RewriteEntry(collapsible, j in old(openChoices), entry);
        out == one.entry && openChoices == if one.open then old(openChoices) + {j} else old(openChoices) - {j}
    {
      var index := entry.index.GetOr(0);
      var delta := entry.delta.GetOr(Chunks.EMPTY_DELTA);
      out := entry.(delta := Some(delta));
      var mirrored, mirrors := "", false;
      if delta.reasoning.Some? && delta.reasoning.value != "" {
        if index !in openChoices {
          mirrored := Thinking.BlockStart(collapsible);
          openChoices := openChoices + {index};
        }
        mirrored := mirrored + delta.reasoning.value;
        mirrors := true;
      }
      var hasContent := delta.content.Given?;
      if index in openChoices && (hasContent || delta.toolCalls.Some? || entry.finish.Some?) {
        mirrored := mirrored + Thinking.BlockEnd(collapsible);
        openChoices := openChoices - {index};
        mirrors := true;
      }
      if !mirrors {
        return;
      }
      if hasContent {
        mirrored := mirrored + delta.content.text;
      }
      out := entry.(delta := Some(delta.(content := Given(mirrored))));
    }

    /** Closes every block that is still open, in ascending order of choice. */
    method FlushChunk() returns (entries: seq<Chunks.Choice>)
      modifies this
      ensures openChoices == {}
      ensures entries == FlushEntries(collapsible, old(openChoices))
    {
      hide ClosingEntry, ClosingEntries, Ascending, StrictlyIncreasing, IsSmallest;
      ghost var before := openChoices;
      entries := [];
      ghost var order := [];
      assert order + Ascending(openChoices) == Ascending(openChoices);
      while openChoices != {}
        invariant Ascending(before) == order + Ascending(openChoices)
        invariant entries == ClosingEntries(collapsible, order)
        decreases openChoices
      {
        var j := Smallest(openChoices);
        AscendingFrom(j, openChoices);
        ClosingAppend(collapsible, order, j);
        Reassociate(order, [j], Ascending(openChoices - {j}));
        openChoices := openChoices - {j};
        entries := entries + [ClosingEntry(collapsible, j)];
        order := order + [j];
      }
      assert Ascending({}) == [] by { EmptyAscending(); }
      assert order + [] == order;
    }
  }

  method Smallest(indexes: set<int>) returns (j: int)
    requires indexes != {}
    ensures IsSmallest(j, indexes)
  {
    j := PickAny(indexes);
    var rest := indexes - {j};
    while rest != {}
      invariant j in indexes && rest <= indexes
      invariant forall k | k in indexes :: k in rest || j <= k
      decreases rest
    {
      var k := PickAny(rest);
      rest := rest - {k};
      if k < j {
        j := k;
      }
    }
  }
}
