/** The frames of a relayed stream: one for every line of the response, and what a chunk becomes. */
module RelayFrames {
  import opened Messages
  import opened AccumulatorFold
  import opened Display
  import opened DisplayBlocks
  import opened Sse
  import opened SseNotice
  import Chunks

  // ----- Lines without a field, and entries without room -----

  /** The white space of Unicode, by code point. */
  lemma WhiteIff(c: char)
    ensures IsWhite(c) <==> c as int in {0x9, 0xA, 0xB, 0xC, 0xD, 0x20, 0x85, 0xA0, 0x1680, 0x2000, 0x2001, 0x2002,
      0x2003, 0x2004, 0x2005, 0x2006, 0x2007, 0x2008, 0x2009, 0x200A, 0x2028, 0x2029, 0x202F, 0x205F, 0x3000}
  {
  }

  /** A line whose text, white space around it aside, does not begin with `data:` is passed on. */
  lemma NoFieldIsPassedOn(decode: string -> Option<Chunks.Chunk>, lead: string, text: string, after: string)
    requires AllWhite(lead) && AllWhite(after)
    requires text != "" && !IsWhite(text[0]) && !IsWhite(text[|text| - 1]) && !IsPrefix("data:", text)
    ensures Classify(decode, lead + (text + after)) == PassedOn
  {
    hide TrimLeft, TrimRight, AllWhite;
    assert (text + after)[0] == text[0];
    TrimLeftDrops(lead, text + after);
    TrimRightDrops(text, after);
  }

  /** An entry has room for the notice when its delta has a content field, even a null one, or tool calls. */
  predicate HasRoom(entry: Chunks.Choice) {
    match entry.delta
    case None => false
    case Some(delta) => delta.content == Nil || delta.content.Given? || delta.toolCalls != None
  }

  /** Injection puts a notice in front of the text of the first entry that has room, and changes nothing else. */
  lemma NoticeGoesToFirstRoom(notice: string, entries: seq<Chunks.Choice>, k: nat)
    requires notice != "" && k < |entries| && HasRoom(entries[k]) && forall i | 0 <= i < k :: !HasRoom(entries[i])
    ensures var out := Noticed(notice, entries);
      && (forall i | 0 <= i < |entries| && i != k :: out[i] == entries[i])
      && OnlyContentDiffers(entries[k], out[k]) && ContentOf(out[k]) == notice + ContentOf(entries[k])
      && Pending(notice, entries) == ""
  {
    FirstCarrierIsUnique(entries, k);
  }

  /** Without such an entry the notice stays pending. */
  lemma NoticeWaitsForRoom(notice: string, entries: seq<Chunks.Choice>)
    requires forall entry | entry in entries :: !HasRoom(entry)
    ensures Noticed(notice, entries) == entries && Pending(notice, entries) == notice
  {
    forall i | 0 <= i < |entries|
      ensures !HasRoom(entries[i])
    {
      assert entries[i] in entries;
    }
  }

  // ----- One frame for every line -----

  ghost predicate EndsWithCarriageReturn(line: string) {
    exists text :: line == text + "\r\n"
  }

  /** The frame of a line: the line itself, or its chunk under the client's model name, with the line's own
      ending. */
  ghost predicate FrameFor(setup: Setup, line: string, frame: Frame) {
    match Classify(setup.decode, line)
    case PassedOn => frame == Verbatim(line)
    case DoneLine => frame == DoneFrame
    case Data(chunk) =>
      && frame.ChunkFrame? && |frame.chunk.choices| == |chunk.choices|
      && frame.chunk.model == (if chunk.model == None then None else Some(setup.model))
      && frame.ending == (if EndsWithCarriageReturn(line) then "\r\n" else "\n")
  }

  /** A frame that the relay adds of its own: under the client's model name, with nothing but content. */
  ghost predicate OwnFrameFor(setup: Setup, frame: Frame) {
    && frame.ChunkFrame? && frame.chunk.model == Some(setup.model) && frame.ending == "\n"
    && forall entry | entry in frame.chunk.choices :: OnlyContent(entry)
  }

  predicate OnlyContent(entry: Chunks.Choice) {
    && entry.index.Some? && entry.finish == None && entry.delta.Some?
    && entry.delta.value == Chunks.Delta(None, entry.delta.value.content, None, None)
  }

  lemma EndingIff(line: string)
    ensures LineEnding(line) == if EndsWithCarriageReturn(line) then "\r\n" else "\n"
  {
    if LineEnding(line) == "\r\n" {
      assert line == line[..|line| - 2] + "\r\n";
    }
    if text :| line == text + "\r\n" {
      assert line[|line| - 2..] == "\r\n";
    }
  }

  lemma ChunkFrameFor(setup: Setup, notice: string, open: set<int>, line: string)
    requires Classify(setup.decode, line).Data?
    ensures var effect := LineEffect(setup, notice, open, line);
      |effect.frames| == 1 && FrameFor(setup, line, effect.frames[0]) && !effect.finished
  {
    hide Classify, Noticed, RewriteAll, LineEnding, EndsWithCarriageReturn;
    EndingIff(line);
  }

  /** The frames so far, line by line; behind the end marker there are none. */
  ghost predicate FramesFollow(setup: Setup, lines: seq<string>, frames: seq<Frame>, finished: bool) {
    if !finished then
      |frames| == |lines| && forall i | 0 <= i < |lines| ::
        !Classify(setup.decode, lines[i]).DoneLine? && FrameFor(setup, lines[i], frames[i])
    else exists n: nat :: FramesEnd(setup, lines, frames, n)
  }

  /** Line `n` is the end marker: in front of its frame stand at most two frames of the relay's own. */
  ghost predicate FramesEnd(setup: Setup, lines: seq<string>, frames: seq<Frame>, n: nat) {
    && n < |lines| && Classify(setup.decode, lines[n]).DoneLine?
    && n < |frames| <= n + 3 && frames[|frames| - 1] == DoneFrame
    && (forall i | 0 <= i < n :: !Classify(setup.decode, lines[i]).DoneLine? && FrameFor(setup, lines[i], frames[i]))
    && forall i | n <= i < |frames| - 1 :: OwnFrameFor(setup, frames[i])
  }

  lemma FlushHasOnlyContent(collapsible: bool, open: set<int>)
    ensures forall entry | entry in FlushEntries(collapsible, open) :: OnlyContent(entry)
  {
  }

  lemma FinalFramesAreOwn(setup: Setup, notice: string, open: set<int>)
    ensures var own := FlushFrames(setup, open) + NoticeFrames(setup, notice);
      |own| <= 2 && forall frame | frame in own :: OwnFrameFor(setup, frame)
  {
    hide FlushEntries;
    if setup.display.Some? {
      FlushHasOnlyContent(setup.display.value, open);
    }
  }

  lemma FramesGrow(setup: Setup, notice: string, open: set<int>, lines: seq<string>, frames: seq<Frame>)
    requires lines != [] && FramesFollow(setup, lines[..|lines| - 1], frames, false)
    ensures var effect := LineEffect(setup, notice, open, lines[|lines| - 1]);
      FramesFollow(setup, lines, frames + effect.frames, effect.finished)
  {
    hide Classify, DataEffect, FlushFrames, NoticeFrames, FrameFor, OwnFrameFor;
    var n := |lines| - 1;
    var effect := LineEffect(setup, notice, open, lines[n]);
    match Classify(setup.decode, lines[n])
    case PassedOn =>
      VerbatimFrameFor(setup, lines[n]);
    case DoneLine =>
      FinalFramesAreOwn(setup, notice, open);
      var own := FlushFrames(setup, open) + NoticeFrames(setup, notice);
      assert forall i | n <= i < n + |own| :: (frames + effect.frames)[i] == own[i - n] && own[i - n] in own;
      assert FramesEnd(setup, lines, frames + effect.frames, n);
    case Data(_) =>
      ChunkFrameFor(setup, notice, open, lines[n]);
  }

  lemma VerbatimFrameFor(setup: Setup, line: string)
    requires Classify(setup.decode, line).PassedOn?
    ensures FrameFor(setup, line, Verbatim(line))
  {
  }

  /** Over a whole run every line of the response has one frame, in order, up to the end marker; the marker comes
      last and once, and what the relay adds in front of it carries nothing but content. */
  lemma {:induction false} OneFramePerLine(setup: Setup, notice: string, lines: seq<string>)
    ensures var r := Relayed(setup, notice, lines); FramesFollow(setup, lines, r.frames, r.finished)
  {
    hide LineEffect, FramesEnd, Classify;
    if lines != [] {
      var n := |lines| - 1;
      OneFramePerLine(setup, notice, lines[..n]);
      var before := Relayed(setup, notice, lines[..n]);
      if before.finished {
        var k: nat :| FramesEnd(setup, lines[..n], before.frames, k);
        FramesEndEarlier(setup, lines, before.frames, k);
      } else {
        FramesGrow(setup, before.notice, before.open, lines, before.frames);
      }
    }
  }

  lemma FramesEndEarlier(setup: Setup, lines: seq<string>, frames: seq<Frame>, k: nat)
    requires lines != [] && FramesEnd(setup, lines[..|lines| - 1], frames, k)
    ensures FramesEnd(setup, lines, frames, k)
  {
    hide Classify, FrameFor, OwnFrameFor;
  }

  // ----- What a chunk becomes -----

  /** Everything but the content of the delta is as it was sent; an absent delta is an empty one. */
  predicate OnlyContentDiffers(sent: Chunks.Choice, shown: Chunks.Choice) {
    var a, b := sent.delta.GetOr(Chunks.EMPTY_DELTA), shown.delta.GetOr(Chunks.EMPTY_DELTA);
    && shown.index == sent.index && shown.finish == sent.finish
    && b.role == a.role && b.reasoning == a.reasoning && b.toolCalls == a.toolCalls
  }

  lemma {:induction false} RewritingKeepsTheRest(collapsible: bool, open: set<int>, entries: seq<Chunks.Choice>)
    ensures forall i | 0 <= i < |entries| ::
      OnlyContentDiffers(entries[i], RewriteAll(collapsible, open, entries).entries[i])
  {
    hide Thinking.BlockStart, Thinking.BlockEnd;
    if entries != [] {
      RewritingKeepsTheRest(collapsible, open, entries[..|entries| - 1]);
    }
  }

  lemma NoticeKeepsTheRest(notice: string, entries: seq<Chunks.Choice>)
    ensures forall i | 0 <= i < |entries| :: OnlyContentDiffers(entries[i], Noticed(notice, entries)[i])
  {
  }

  lemma ShowingKeepsTheRest(display: Option<bool>, notice: string, given: seq<Chunks.Choice>)
    ensures var shown := Shown(display, {}, Noticed(notice, given)).entries;
      |shown| == |given| && forall i | 0 <= i < |given| :: OnlyContentDiffers(given[i], shown[i])
  {
    hide Noticed, RewriteAll;
    NoticeKeepsTheRest(notice, given);
    if display.Some? {
      RewritingKeepsTheRest(display.value, {}, Noticed(notice, given));
    }
  }

  /** Over a whole run, display and notice on or off: the client receives every entry of the response, in order,
      with its index, finish reason, role, reasoning and tool calls, and behind them only entries of the relay
      that carry nothing but content. */
  lemma OnlyContentIsRewritten(setup: Setup, notice: string, lines: seq<string>)
    ensures var given := Chunks.Entries(Decoded(setup.decode, lines));
      var client := ClientEntries(Relayed(setup, notice, lines).frames);
      && |given| <= |client|
      && (forall i | 0 <= i < |given| :: OnlyContentDiffers(given[i], client[i]))
      && (forall i | |given| <= i < |client| :: OnlyContent(client[i]))
  {
    hide Relayed, Decoded, Noticed, RewriteAll, FlushEntries, ClientEntries, OnlyContentDiffers;
    RunRelaysDecoded(setup, notice, lines);
    var given := Chunks.Entries(Decoded(setup.decode, lines));
    ShowingKeepsTheRest(setup.display, notice, given);
    var shown := Shown(setup.display, {}, Noticed(notice, given));
    if setup.display.Some? {
      FlushHasOnlyContent(setup.display.value, shown.open);
    }
  }

  // ----- When a block is open -----

  /** Nothing in the entry ends a block: no string content, no list of tool calls and no finish reason. */
  predicate EndsNothing(entry: Chunks.Choice) {
    && entry.finish == None
    && match entry.delta
       case None => true
       case Some(delta) => (delta.content == Absent || delta.content == Nil) && delta.toolCalls == None
  }

  /** Reasoning text has come, and nothing since, its own entry included, has ended the block. */
  ghost predicate StillReasoning(own: seq<Chunks.Choice>, i: nat) {
    && i < |own| && ReasoningOf(own[i]).Some? && |ReasoningOf(own[i]).value| > 0
    && forall k | i <= k < |own| :: EndsNothing(own[k])
  }

  lemma {:induction false} OwnOpenIff(own: seq<Chunks.Choice>)
    ensures OpenAfter(false, own) <==> exists i: nat :: StillReasoning(own, i)
  {
    if own != [] {
      var n, before := |own| - 1, own[..|own| - 1];
      OwnOpenIff(before);
      if Mirrors(own[n]) && !Closes(own[n]) {
        assert StillReasoning(own, n);
      }
      if OpenAfter(false, before) && !Closes(own[n]) {
        var i: nat :| StillReasoning(before, i);
        assert StillReasoning(own, i);
      }
      if i: nat :| StillReasoning(own, i) {
        assert EndsNothing(own[n]);
        assert i < n ==> StillReasoning(before, i);
      }
    }
  }

  /** After any entries the adapter holds a choice open exactly when its reasoning was the last thing to come. */
  lemma OpenIff(collapsible: bool, entries: seq<Chunks.Choice>, j: int)
    ensures j in RewriteAll(collapsible, {}, entries).open
       <==> exists i: nat :: StillReasoning(Chunks.Own(entries, j), i)
  {
    hide RewriteAll, RewriteOwn, StillReasoning, OpenAfter;
    ChoicesAreRewrittenAlone(collapsible, {}, entries, j);
    OwnOpenIff(Chunks.Own(entries, j));
  }
}
