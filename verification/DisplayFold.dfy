/** Streaming display, non-streaming display, and the next request's strip agree with each other. */
module DisplayFold {
  import opened Messages
  import opened AccumulatorFold
  import opened Display
  import opened DisplayBlocks
  import Accumulator
  import Chunks
  import Keys
  import KeyStability
  import Normalize
  import Thinking

  /** What the non-streaming path makes of one message: reasoning printed in front of the content. */
  function FoldReasoning(message: Message, collapsible: bool): Message {
    if message.reasoning.GetOr("") == "" then message
    else message.(content := Some(Thinking.BlockStart(collapsible) + message.reasoning.value
                                  + Thinking.BlockEnd(collapsible) + message.content.GetOr("")))
  }

  method FoldReasoningIntoContent(choices: array<Message>, collapsible: bool)
    modifies choices
    ensures forall i | 0 <= i < choices.Length :: choices[i] == FoldReasoning(old(choices[i]), collapsible)
  {
    var blockStart, blockEnd := Thinking.BlockStart(collapsible), Thinking.BlockEnd(collapsible);
    for i := 0 to choices.Length
      invariant forall k | 0 <= k < i :: choices[k] == FoldReasoning(old(choices[k]), collapsible)
      invariant forall k | i <= k < choices.Length :: choices[k] == old(choices[k])
    {
      var message := choices[i];
      if message.reasoning.Some? && message.reasoning.value != "" {
        choices[i] := message.(content := Some(blockStart + message.reasoning.value + blockEnd
                                               + message.content.GetOr("")));
      }
    }
  }

  /** No reasoning text arrives in an entry after one that carries content, tool calls or a finish. */
  ghost predicate ReasoningFirst(entries: seq<Chunks.Choice>) {
    forall i, k | 0 <= i < k < |entries| :: Closes(entries[i]) ==> !Mirrors(entries[k])
  }

  /** What the client has received of a choice whose reasoning comes first. */
  function Displayed(start: string, end: string, open: bool, reasoning: string, content: string): string {
    if reasoning == "" then content
    else if open then start + reasoning
    else start + reasoning + end + content
  }

  ghost predicate SomeCloses(entries: seq<Chunks.Choice>) {
    exists i :: 0 <= i < |entries| && Closes(entries[i])
  }

  /** The state of a choice whose reasoning comes first, after some of its entries. */
  ghost predicate PrintedSoFar(collapsible: bool, entries: seq<Chunks.Choice>) {
    var open, reasoning := OpenAfter(false, entries), Reasonings(entries);
    && Contents(RewriteOwn(collapsible, false, entries))
        == Displayed(Thinking.BlockStart(collapsible), Thinking.BlockEnd(collapsible),
                                                                      open, reasoning, Contents(entries))
    && (if SomeCloses(entries) then !open else Contents(entries) == "" && open == (reasoning != ""))
  }

  lemma SomeClosesAppend(entries: seq<Chunks.Choice>)
    requires entries != []
    ensures var n := |entries| - 1; SomeCloses(entries) <==> SomeCloses(entries[..n]) || Closes(entries[n])
  {
    var n := |entries| - 1;
    if SomeCloses(entries[..n]) {
      var i :| 0 <= i < n && Closes(entries[..n][i]);
      assert Closes(entries[i]);
    }
    if i :| 0 <= i < |entries| && Closes(entries[i]) && i < n {
      assert Closes(entries[..n][i]);
    }
  }

  /** After the reasoning phase an entry only adds its content. */
  lemma DisplayedGrowsClosed(start: string, end: string, reasoning: string, content: string, t: string)
    ensures Displayed(start, end, false, reasoning, content) + ("" + "" + "" + t)
         == Displayed(start, end, false, reasoning + "", content + t)
  {
    assert "" + "" + "" + t == t;
    assert reasoning + "" == reasoning;
    assert (start + reasoning + end + content) + t == start + reasoning + end + (content + t);
  }

  /** During the reasoning phase it adds reasoning, and the first closing entry ends the phase. */
  lemma DisplayedGrowsOpen(start: string, end: string, reasoning: string, r: string, t: string, closes: bool)
    requires !closes ==> t == ""
    ensures var open := reasoning != "";
      Displayed(start, end, open, reasoning, "")
      + ((if r != "" && !open then start else "") + r + (if (open || r != "") && closes then end else "") + t)
      == Displayed(start, end, (open || r != "") && !closes, reasoning + r, "" + t)
  {
    var open := reasoning != "";
    var e := if (open || r != "") && closes then end else "";
    assert "" + t == t;
    if !open && r != "" {
      assert "" + (start + r + e + t) == start + ("" + r) + e + t;
    } else {
      assert "" + r + e + t == r + e + t;
      assert (start + reasoning) + (r + e + t) == start + (reasoning + r) + e + t;
    }
    assert !closes ==> e + t == "" && start + (reasoning + r) + e + t == start + (reasoning + r);
  }

  lemma EntryIsPrinted(collapsible: bool, entries: seq<Chunks.Choice>)
    requires entries != [] && ReasoningFirst(entries)
    requires PrintedSoFar(collapsible, entries[..|entries| - 1])
    ensures PrintedSoFar(collapsible, entries)
  {
    hide Thinking.BlockStart, Thinking.BlockEnd, PiecesOf, RewriteEntry, Render, PlainText, InteriorText, SomeCloses,
      Displayed;
    var n, before := |entries| - 1, entries[..|entries| - 1];
    var entry, open := entries[n], OpenAfter(false, before);
    var s, r, e, t := EntrySlots(collapsible, open, entry);
    EntryText(collapsible, open, entry);
    ContentsAppend(RewriteOwn(collapsible, false, before), RewriteEntry(collapsible, open, entry).entry);
    SomeClosesAppend(entries);
    ClosedMeansSilent(entries);
    if SomeCloses(before) {
      DisplayedGrowsClosed(Thinking.BlockStart(collapsible), Thinking.BlockEnd(collapsible), Reasonings(before),
                           Contents(before), t);
    } else {
      DisplayedGrowsOpen(Thinking.BlockStart(collapsible), Thinking.BlockEnd(collapsible), Reasonings(before), r, t,
                         Closes(entry));
    }
  }

  lemma ClosedMeansSilent(entries: seq<Chunks.Choice>)
    requires entries != [] && ReasoningFirst(entries)
    ensures SomeCloses(entries[..|entries| - 1]) ==> !Mirrors(entries[|entries| - 1])
  {
    var n := |entries| - 1;
    if SomeCloses(entries[..n]) {
      var i :| 0 <= i < n && Closes(entries[..n][i]);
      assert Closes(entries[i]);
    }
  }

  lemma {:induction false} ReasoningFirstIsPrinted(collapsible: bool, entries: seq<Chunks.Choice>)
    requires ReasoningFirst(entries)
    ensures PrintedSoFar(collapsible, entries)
  {
    hide PrintedSoFar;
    if entries == [] {
      NothingPrinted(collapsible);
    } else {
      ReasoningFirstIsPrinted(collapsible, entries[..|entries| - 1]);
      EntryIsPrinted(collapsible, entries);
    }
  }

  lemma NothingPrinted(collapsible: bool)
    ensures PrintedSoFar(collapsible, [])
  {
  }

  /** Streaming display agrees with the non-streaming fold: for every way of cutting a message whose
      reasoning comes first, the client ends up with the content that folding the assembled message
      would have given it. */
  lemma StreamedDisplayIsFold(collapsible: bool, entries: seq<Chunks.Choice>, j: int)
    requires ReasoningFirst(Chunks.Own(entries, j))
    ensures Some(ClientContent(collapsible, entries, j))
         == FoldReasoning(Assembled(entries, j), collapsible).content
  {
    hide Thinking.BlockStart, Thinking.BlockEnd, ClientContent, Assembled, AllPieces, Render, ReasoningFirst;
    var own := Chunks.Own(entries, j);
    AccumulatedText(entries, j);
    ClientContentIsPieces(collapsible, entries, j);
    ClosedText(collapsible, own);
  }

  lemma ClosedText(collapsible: bool, own: seq<Chunks.Choice>)
    requires ReasoningFirst(own)
    ensures Render(collapsible, AllPieces(own))
         == Displayed(Thinking.BlockStart(collapsible), Thinking.BlockEnd(collapsible), false, Reasonings(own),
                      Contents(own))
  {
    hide Thinking.BlockStart, Thinking.BlockEnd, Render, Pieces, RewriteOwn, Scan, PlainText, InteriorText,
      ReasoningFirst, SomeCloses, OpenAfter;
    RenderConcat(collapsible, Pieces(false, own), if OpenAfter(false, own) then [End] else []);
    Optional(collapsible, true, OpenAfter(false, own), End);
    OwnPieces(collapsible, false, own);
    ReasoningFirstIsPrinted(collapsible, own);
    var printed := Contents(RewriteOwn(collapsible, false, own));
    assert printed + "" == printed;
    assert printed + Thinking.BlockEnd(collapsible) + "" == printed + Thinking.BlockEnd(collapsible);
  }

  lemma AccumulatedText(entries: seq<Chunks.Choice>, j: int)
    ensures Assembled(entries, j).content == Some(Contents(Chunks.Own(entries, j)))
    ensures Assembled(entries, j).reasoning.GetOr("") == Reasonings(Chunks.Own(entries, j))
  {
    AccumulatedChoice(entries, j);
  }

  /** The way back: a client that echoes what it was shown is stripped back to the content that was
      recorded, so the echoed turn has all the aliases of the recorded one. */
  lemma EchoOfDisplayHasRecordedKeys(collapsible: bool, entries: seq<Chunks.Choice>, j: int, echo: Message)
    requires ReasoningFirst(Chunks.Own(entries, j))
    requires var recorded := Assembled(entries, j);
      && recorded.role == Assistant && recorded.reasoning.GetOr("") != ""
      && Thinking.NoClosingTag(collapsible, recorded.reasoning.value)
      && Thinking.NoBlock(recorded.content.GetOr(""))
      && Thinking.TrimSpace(recorded.content.GetOr("")) == recorded.content.GetOr("")
      && echo.role == Assistant && echo.toolCalls == recorded.toolCalls
      && echo.content == Some(ClientContent(collapsible, entries, j))
    ensures Normalize.Shape(echo).content == Assembled(entries, j).content
    ensures Keys.Aliases(Normalize.Shape(echo)) == Keys.Aliases(Assembled(entries, j))
  {
    hide Thinking.BlockStart, Thinking.BlockEnd, Thinking.Strip, ClientContent, Accumulator.IngestAll, Assembled;
    var recorded := Assembled(entries, j);
    AccumulatedText(entries, j);
    StreamedDisplayIsFold(collapsible, entries, j);
    Thinking.PrintStripRoundTrip(collapsible, recorded.reasoning.value, recorded.content.value);
    KeyStability.AliasesOfEcho(recorded, echo);
  }
}
