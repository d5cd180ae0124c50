/** What a relayed stream delivers and records, over whole runs: the notice at most once, in front of
    the content of the choice that carries it, and everything else unchanged. */
module SseNotice {
  import opened Messages
  import opened ReasoningStore
  import opened Prepare
  import opened Recording
  import opened Accumulator
  import opened AccumulatorFold
  import opened Display
  import opened DisplayBlocks
  import opened StreamRecording
  import opened Sse
  import opened StreamRuns
  import OwnWrites
  import StageHistory
  import Chunks
  import CacheHistory
  import Keys

  // ----- The input, without the relay -----

  ghost predicate ReachesEnd(decode: string -> Option<Chunks.Chunk>, lines: seq<string>) {
    exists line :: line in lines && Classify(decode, line).DoneLine?
  }

  /** The chunks of the response up to its end marker. */
  ghost function Decoded(decode: string -> Option<Chunks.Chunk>, lines: seq<string>): seq<Chunks.Chunk> {
    if lines == [] then [] else
    var n := |lines| - 1;
    var before, last := Decoded(decode, lines[..n]), Classify(decode, lines[n]);
    if last.Data? && !ReachesEnd(decode, lines[..n]) then before + [last.chunk] else before
  }

  /** The lines up to the end marker that are not chunks. */
  ghost function PassedLines(decode: string -> Option<Chunks.Chunk>, lines: seq<string>): seq<string> {
    if lines == [] then [] else
    var n := |lines| - 1;
    var before, last := PassedLines(decode, lines[..n]), Classify(decode, lines[n]);
    if last.PassedOn? && !ReachesEnd(decode, lines[..n]) then before + [lines[n]] else before
  }

  lemma ReachesEndAppend(decode: string -> Option<Chunks.Chunk>, lines: seq<string>)
    requires lines != []
    ensures var n := |lines| - 1;
      ReachesEnd(decode, lines) <==> ReachesEnd(decode, lines[..n]) || Classify(decode, lines[n]).DoneLine?
  {
    hide Classify;
    var n := |lines| - 1;
    assert forall line :: line in lines <==> line in lines[..n] || line == lines[n];
  }

  // ----- Injection distributes over concatenation -----

  lemma {:induction false} FirstCarrierConcat(a: seq<Chunks.Choice>, b: seq<Chunks.Choice>)
    ensures FirstCarrier(a + b) == if FirstCarrier(a) >= 0 then FirstCarrier(a)
                                   else if FirstCarrier(b) >= 0 then |a| + FirstCarrier(b) else -1
  {
    hide Carries;
    if b == [] {
      assert a + b == a;
    } else {
      assert (a + b)[..|a + b| - 1] == a + b[..|b| - 1];
      FirstCarrierConcat(a, b[..|b| - 1]);
    }
  }

  lemma NoticedConcat(notice: string, a: seq<Chunks.Choice>, b: seq<Chunks.Choice>)
    ensures Noticed(notice, a + b) == Noticed(notice, a) + Noticed(Pending(notice, a), b)
    ensures Pending(notice, a + b) == Pending(Pending(notice, a), b)
  {
    hide Carries, WithNotice, FirstCarrier;
    FirstCarrierConcat(a, b);
  }

  /** The chunks as they are fed to the accumulator. */
  function NoticedChunks(notice: string, chunks: seq<Chunks.Chunk>): (r: seq<Chunks.Chunk>)
    ensures |r| == |chunks|
  {
    if chunks == [] then [] else
    var n := |chunks| - 1;
    var pending := Pending(notice, Chunks.Entries(chunks[..n]));
    NoticedChunks(notice, chunks[..n]) + [chunks[n].(choices := Noticed(pending, chunks[n].choices))]
  }

  lemma {:induction false} EntriesOfNoticed(notice: string, chunks: seq<Chunks.Chunk>)
    ensures Chunks.Entries(NoticedChunks(notice, chunks)) == Noticed(notice, Chunks.Entries(chunks))
  {
    hide Noticed, Pending;
    if chunks == [] {
      NothingNoticed(notice);
    } else {
      var n := |chunks| - 1;
      EntriesOfNoticed(notice, chunks[..n]);
      NoticedConcat(notice, Chunks.Entries(chunks[..n]), chunks[n].choices);
    }
  }

  lemma NothingNoticed(notice: string)
    ensures Noticed(notice, []) == [] && Pending(notice, []) == notice
  {
  }

  // ----- The whole run -----

  function ClientEntries(frames: seq<Frame>): seq<Chunks.Choice> {
    if frames == [] then [] else
    var last := frames[|frames| - 1];
    ClientEntries(frames[..|frames| - 1]) + if last.ChunkFrame? then last.chunk.choices else []
  }

  function Verbatims(frames: seq<Frame>): seq<string> {
    if frames == [] then [] else
    var last := frames[|frames| - 1];
    Verbatims(frames[..|frames| - 1]) + if last.Verbatim? then [last.line] else []
  }

  lemma {:induction false} ClientEntriesConcat(a: seq<Frame>, b: seq<Frame>)
    ensures ClientEntries(a + b) == ClientEntries(a) + ClientEntries(b)
    ensures Verbatims(a + b) == Verbatims(a) + Verbatims(b)
  {
    if b == [] {
      assert a + b == a;
    } else {
      assert (a + b)[..|a + b| - 1] == a + b[..|b| - 1];
      ClientEntriesConcat(a, b[..|b| - 1]);
    }
  }

  lemma OneFrame(frame: Frame)
    ensures ClientEntries([frame]) == if frame.ChunkFrame? then frame.chunk.choices else []
    ensures Verbatims([frame]) == if frame.Verbatim? then [frame.line] else []
  {
    assert [frame][..0] == [];
  }

  ghost function FlushOf(display: Option<bool>, open: set<int>): seq<Chunks.Choice> {
    if display.None? then [] else FlushEntries(display.value, open)
  }

  function NoticeOf(notice: string): seq<Chunks.Choice> {
    if notice == "" then [] else [NoticeEntry(notice)]
  }

  /** The state of the relay after some lines, told from the decoded input alone. */
  ghost predicate RelaysDecoded(setup: Setup, notice: string, lines: seq<string>) {
    var r, chunks := Relayed(setup, notice, lines), Decoded(setup.decode, lines);
    var given := Chunks.Entries(chunks);
    var shown := Shown(setup.display, {}, Noticed(notice, given));
    && r.finished == ReachesEnd(setup.decode, lines)
    && r.fed == NoticedChunks(notice, chunks)
    && Verbatims(r.frames) == PassedLines(setup.decode, lines)
    && (if r.finished
        then r.notice == ""
          && ClientEntries(r.frames) == shown.entries
              + (FlushOf(setup.display, shown.open) + NoticeOf(Pending(notice, given)))
        else r.notice == Pending(notice, given) && r.open == shown.open && ClientEntries(r.frames) == shown.entries)
  }

  lemma ShownConcat(display: Option<bool>, a: seq<Chunks.Choice>, b: seq<Chunks.Choice>)
    ensures var x := Shown(display, {}, a); var y := Shown(display, x.open, b);
      Shown(display, {}, a + b) == Rewriting(x.entries + y.entries, y.open)
  {
    hide RewriteAll;
    if display.Some? {
      RewriteAllConcat(display.value, {}, a, b);
    }
  }

  lemma NoFlushWithoutOpen(collapsible: bool)
    ensures FlushEntries(collapsible, {}) == []
  {
    EmptyAscending();
  }

  lemma FinalFrames(setup: Setup, notice: string, open: set<int>)
    ensures var frames := FlushFrames(setup, open) + NoticeFrames(setup, notice) + [DoneFrame];
      && ClientEntries(frames) == FlushOf(setup.display, open) + NoticeOf(notice)
      && Verbatims(frames) == []
  {
    hide FlushEntries, ClientEntries, Verbatims;
    var flush, own := FlushFrames(setup, open), NoticeFrames(setup, notice);
    NoFrames();
    ClientEntriesConcat(flush + own, [DoneFrame]);
    ClientEntriesConcat(flush, own);
    OneFrame(DoneFrame);
    if flush != [] {
      OneFrame(flush[0]);
    }
    if own != [] {
      OneFrame(own[0]);
    }
    if setup.display.Some? {
      NoFlushWithoutOpen(setup.display.value);
    }
  }

  lemma NoFrames()
    ensures ClientEntries([]) == [] && Verbatims([]) == []
  {
  }

  lemma RelayOneMore(setup: Setup, notice: string, lines: seq<string>)
    requires lines != [] && RelaysDecoded(setup, notice, lines[..|lines| - 1])
    ensures RelaysDecoded(setup, notice, lines)
  {
    hide FlushEntries, ClientEntries, Verbatims, Classify, RewriteAll, Noticed, Pending, ReachesEnd, FlushFrames,
      NoticeFrames, FlushOf, NoticeOf, Shown;
    var n := |lines| - 1;
    var before := Relayed(setup, notice, lines[..n]);
    ReachesEndAppend(setup.decode, lines);
    if !before.finished {
      match Classify(setup.decode, lines[n])
      case PassedOn =>
        ClientEntriesConcat(before.frames, [Verbatim(lines[n])]);
        OneFrame(Verbatim(lines[n]));
        assert before.fed + [] == before.fed;
      case DoneLine =>
        FinalFrames(setup, before.notice, before.open);
        ClientEntriesConcat(before.frames, FlushFrames(setup, before.open) + NoticeFrames(setup, before.notice)
                            + [DoneFrame]);
        assert before.fed + [] == before.fed;
      case Data(chunk) =>
        RelayOneChunk(setup, notice, lines, chunk);
    }
  }

  lemma RelayOneChunk(setup: Setup, notice: string, lines: seq<string>, chunk: Chunks.Chunk)
    requires lines != [] && RelaysDecoded(setup, notice, lines[..|lines| - 1])
    requires !ReachesEnd(setup.decode, lines) && Classify(setup.decode, lines[|lines| - 1]) == Data(chunk)
    requires !ReachesEnd(setup.decode, lines[..|lines| - 1])
    ensures RelaysDecoded(setup, notice, lines)
  {
    hide FlushEntries, ClientEntries, Verbatims, Classify, RewriteAll, Noticed, Pending, ReachesEnd, FlushFrames,
      NoticeFrames, FlushOf, NoticeOf, Shown;
    var n := |lines| - 1;
    var before, chunks := Relayed(setup, notice, lines[..n]), Decoded(setup.decode, lines[..n]);
    var given := Chunks.Entries(chunks);
    var effect := DataEffect(setup, before.notice, before.open, chunk, LineEnding(lines[n]));
    ClientEntriesConcat(before.frames, effect.frames);
    OneFrame(effect.frames[0]);
    EntriesAppend(chunks, chunk);
    NoticedConcat(notice, given, chunk.choices);
    ShownConcat(setup.display, Noticed(notice, given), Noticed(before.notice, chunk.choices));
    assert (chunks + [chunk])[..|chunks|] == chunks;
  }

  lemma {:induction false} RunRelaysDecoded(setup: Setup, notice: string, lines: seq<string>)
    ensures RelaysDecoded(setup, notice, lines)
  {
    hide RelaysDecoded;
    if lines == [] {
      NothingRelayed(setup, notice);
    } else {
      RunRelaysDecoded(setup, notice, lines[..|lines| - 1]);
      RelayOneMore(setup, notice, lines);
    }
  }

  lemma NothingRelayed(setup: Setup, notice: string)
    ensures RelaysDecoded(setup, notice, [])
  {
  }

  // ----- Where the notice goes -----

  /** The choice that carries the notice; a frame of the relay's own belongs to choice 0. */
  function Carrier(given: seq<Chunks.Choice>): int {
    var k := FirstCarrier(given);
    if k >= 0 then Chunks.IndexOf(given[k]) else 0
  }

  /** The notice is delivered as soon as something can carry it, and at the latest at the end marker. */
  ghost predicate Delivered(setup: Setup, lines: seq<string>) {
    FirstCarrier(Chunks.Entries(Decoded(setup.decode, lines))) >= 0 || ReachesEnd(setup.decode, lines)
  }

  function InjectedInto(notice: string, given: seq<Chunks.Choice>, j: int): string {
    if FirstCarrier(given) >= 0 && Carrier(given) == j then notice else ""
  }

  lemma IngestNothing(p: Partial, entry: Chunks.Choice)
    requires !Carries(entry)
    ensures Ingest(p, entry).content == p.content && Ingest(p, entry).toolCalls == p.toolCalls
  {
  }

  lemma {:induction false} NothingBeforeTheCarrier(given: seq<Chunks.Choice>, j: int)
    requires FirstCarrier(given) == -1
    ensures Fold(FRESH, Chunks.Own(given, j)).content == "" && Fold(FRESH, Chunks.Own(given, j)).toolCalls == []
  {
    if given != [] {
      var n := |given| - 1;
      hide Fold, Ingest;
      NothingBeforeTheCarrier(given[..n], j);
      IngestNothing(Fold(FRESH, Chunks.Own(given[..n], j)), given[n]);
      FoldAppend(FRESH, Chunks.Own(given[..n], j), given[n]);
    }
  }

  lemma IngestWithNotice(p: Partial, notice: string, entry: Chunks.Choice)
    requires Carries(entry) && p.content == ""
    ensures Ingest(p, WithNotice(notice, entry)) == Ingest(p, entry).(content := notice + Ingest(p, entry).content)
  {
    hide MergeAll;
    assert "" + (notice + ContentOf(entry)) == notice + ContentOf(entry);
    assert "" + ContentOf(entry) == ContentOf(entry);
  }

  lemma IngestKeepsFront(p: Partial, q: Partial, front: string, entry: Chunks.Choice)
    requires q == p.(content := front + p.content)
    ensures Ingest(q, entry) == Ingest(p, entry).(content := front + Ingest(p, entry).content)
  {
    hide MergeAll;
    assert (front + p.content) + ContentOf(entry) == front + (p.content + ContentOf(entry));
  }

  /** Injection changes one thing in what is accumulated: the notice stands in front of the whole
      content of the choice that carries it. */
  lemma {:induction false} NoticeOnlyPrefixesContent(notice: string, given: seq<Chunks.Choice>, j: int)
    ensures var p := Fold(FRESH, Chunks.Own(given, j));
      Fold(FRESH, Chunks.Own(Noticed(notice, given), j)) == p.(content := InjectedInto(notice, given, j) + p.content)
  {
    hide Ingest, Carries, WithNotice;
    if given == [] {
      assert "" + "" == "";
    } else {
      var n := |given| - 1;
      NoticeOnlyPrefixesContent(notice, given[..n], j);
      NoticeReachesOneMore(notice, given, j);
    }
  }

  lemma NoticeReachesOneMore(notice: string, given: seq<Chunks.Choice>, j: int)
    requires given != []
    requires var before := given[..|given| - 1]; var p := Fold(FRESH, Chunks.Own(before, j));
      Fold(FRESH, Chunks.Own(Noticed(notice, before), j)) == p.(content := InjectedInto(notice, before, j) + p.content)
    ensures var p := Fold(FRESH, Chunks.Own(given, j));
      Fold(FRESH, Chunks.Own(Noticed(notice, given), j)) == p.(content := InjectedInto(notice, given, j) + p.content)
  {
    hide Ingest, Carries, WithNotice, Fold, FirstCarrier, Noticed, Carrier;
    var before, last := given[..|given| - 1], given[|given| - 1];
    var p := Fold(FRESH, Chunks.Own(before, j));
    assert given == before + [last];
    if notice == "" || FirstCarrier(given) == -1 {
      NoticeAddsNothing(notice, given, j);
    } else if FirstCarrier(before) >= 0 {
      NoticeCarriedBefore(notice, before, last);
      OwnAppend(before, last, j);
      OwnAppend(Noticed(notice, before), last, j);
      FoldAppend(FRESH, Chunks.Own(before, j), last);
      FoldAppend(FRESH, Chunks.Own(Noticed(notice, before), j), last);
      IngestKeepsFront(p, Fold(FRESH, Chunks.Own(Noticed(notice, before), j)), InjectedInto(notice, before, j), last);
    } else {
      NoticeCarriedLast(notice, before, last);
      NothingBeforeTheCarrier(before, j);
      OwnAppend(before, last, j);
      OwnAppend(before, WithNotice(notice, last), j);
      FoldAppend(FRESH, Chunks.Own(before, j), last);
      FoldAppend(FRESH, Chunks.Own(before, j), WithNotice(notice, last));
      IngestWithNotice(p, notice, last);
      assert "" + p.content == p.content;
    }
  }

  lemma NoticeAddsNothing(notice: string, given: seq<Chunks.Choice>, j: int)
    requires notice == "" || FirstCarrier(given) == -1
    ensures Noticed(notice, given) == given && InjectedInto(notice, given, j) == ""
    ensures var p := Fold(FRESH, Chunks.Own(given, j)); p == p.(content := "" + p.content)
  {
    hide Fold, FirstCarrier;
    var p := Fold(FRESH, Chunks.Own(given, j));
    assert "" + p.content == p.content;
  }

  lemma NoticeCarriedBefore(notice: string, before: seq<Chunks.Choice>, last: Chunks.Choice)
    requires notice != "" && FirstCarrier(before) >= 0
    ensures Noticed(notice, before + [last]) == Noticed(notice, before) + [last]
    ensures FirstCarrier(before + [last]) >= 0 && Carrier(before + [last]) == Carrier(before)
  {
    hide Carries, WithNotice, FirstCarrier;
    FirstCarrierConcat(before, [last]);
  }

  lemma NoticeCarriedLast(notice: string, before: seq<Chunks.Choice>, last: Chunks.Choice)
    requires notice != "" && FirstCarrier(before) == -1 && FirstCarrier(before + [last]) >= 0
    ensures Carries(last) && Noticed(notice, before + [last]) == before + [WithNotice(notice, last)]
    ensures Carrier(before + [last]) == Chunks.IndexOf(last)
    ensures Chunks.IndexOf(WithNotice(notice, last)) == Chunks.IndexOf(last)
  {
    hide WithNotice;
    assert FirstCarrier(before + [last]) == |before| by {
      FirstCarrierConcat(before, [last]);
    }
    assert (before + [last])[|before|] == last;
    KeepsIndex(notice, last);
  }

  lemma KeepsIndex(notice: string, entry: Chunks.Choice)
    requires Carries(entry)
    ensures Chunks.IndexOf(WithNotice(notice, entry)) == Chunks.IndexOf(entry)
  {
  }

  // ----- Main results -----

  /** The accumulated message of every choice is the message of the response as it was sent, with the
      notice in front of its content if this choice carries it; and if nothing carries the notice then
      no choice has content or tool calls. */
  lemma AccumulatedUnderNotice(setup: Setup, notice: string, lines: seq<string>, j: int)
    ensures var given, fed := Chunks.Entries(Decoded(setup.decode, lines)),
      Chunks.Entries(Relayed(setup, notice, lines).fed);
      var sent, recorded := Assembled(given, j), Assembled(fed, j);
      && recorded == sent.(content := Some(InjectedInto(notice, given, j) + sent.content.GetOr("")))
      && (FirstCarrier(given) == -1 ==> sent.content == Some("") && sent.toolCalls == [])
  {
    hide Relayed, Decoded, Noticed, Fold, FirstCarrier, IngestAll, InjectedInto;
    var chunks := Decoded(setup.decode, lines);
    var given := Chunks.Entries(chunks);
    RunRelaysDecoded(setup, notice, lines);
    EntriesOfNoticed(notice, chunks);
    ChoiceIsOwnFold(map[], given, j);
    ChoiceIsOwnFold(map[], Noticed(notice, given), j);
    NoticeOnlyPrefixesContent(notice, given, j);
    if FirstCarrier(given) == -1 {
      NothingBeforeTheCarrier(given, j);
    }
  }

  lemma OwnNotice(notice: string, j: int)
    ensures Contents(Chunks.Own(NoticeOf(notice), j)) == if j == 0 then notice else ""
  {
    if notice != "" {
      var entry := NoticeEntry(notice);
      assert [entry][..0] == [];
      assert "" + notice == notice;
      assert j == 0 ==> [] + [entry] == [entry];
    }
  }

  /** The client's content without thinking blocks, with display off: the content that was sent, and in
      front of it, on the carrying choice and nowhere else, the notice; never twice, and always when the
      end marker is reached. */
  lemma NoticeIsDeliveredOnce(setup: Setup, notice: string, lines: seq<string>, j: int)
    requires setup.display.None?
    ensures var given := Chunks.Entries(Decoded(setup.decode, lines));
      Contents(Chunks.Own(ClientEntries(Relayed(setup, notice, lines).frames), j))
      == (if Delivered(setup, lines) && Carrier(given) == j then notice else "") + Contents(Chunks.Own(given, j))
  {
    hide Relayed, Decoded, Noticed, ClientEntries, FlushEntries, Classify, Fold, Contents, Reasonings, NoticedChunks,
      Verbatims, ReachesEnd, PassedLines, FirstCarrier;
    var chunks, r := Decoded(setup.decode, lines), Relayed(setup, notice, lines);
    var given := Chunks.Entries(chunks);
    var own := if r.finished then NoticeOf(Pending(notice, given)) else [];
    RunRelaysDecoded(setup, notice, lines);
    assert [] + NoticeOf(Pending(notice, given)) == NoticeOf(Pending(notice, given));
    assert Noticed(notice, given) + [] == Noticed(notice, given);
    assert ClientEntries(r.frames) == Noticed(notice, given) + own;
    Chunks.OwnConcat(Noticed(notice, given), own, j);
    ContentsConcat(Chunks.Own(Noticed(notice, given), j), Chunks.Own(own, j));
    OwnNotice(Pending(notice, given), j);
    PlainUnderNotice(notice, given, j);
  }

  /** The content fed to the accumulator and to the display adapter. */
  lemma PlainUnderNotice(notice: string, given: seq<Chunks.Choice>, j: int)
    ensures Contents(Chunks.Own(Noticed(notice, given), j)) == InjectedInto(notice, given, j)
      + Contents(Chunks.Own(given, j))
    ensures Reasonings(Chunks.Own(Noticed(notice, given), j)) == Reasonings(Chunks.Own(given, j))
    ensures FirstCarrier(given) == -1 ==> Contents(Chunks.Own(given, j)) == ""
  {
    hide Noticed, Fold, FirstCarrier, InjectedInto;
    NoticeOnlyPrefixesContent(notice, given, j);
    FoldConcatenates(Chunks.Own(given, j));
    FoldConcatenates(Chunks.Own(Noticed(notice, given), j));
    if FirstCarrier(given) == -1 {
      NothingBeforeTheCarrier(given, j);
    }
  }

  /** The pieces that a displayed choice consists of: with the flush once the end marker is reached. */
  ghost function ShownPieces(setup: Setup, notice: string, lines: seq<string>, j: int): seq<Piece> {
    var own := Chunks.Own(Noticed(notice, Chunks.Entries(Decoded(setup.decode, lines))), j);
    if ReachesEnd(setup.decode, lines) then AllPieces(own) else Pieces(false, own)
  }

  /** The relay's own notice, sent at the end marker if nothing carried it. */
  ghost function OwnNoticeOf(setup: Setup, notice: string, lines: seq<string>, j: int): string {
    if ReachesEnd(setup.decode, lines) && FirstCarrier(Chunks.Entries(Decoded(setup.decode, lines))) == -1 && j == 0
    then notice else ""
  }

  /** With display on, whether or not the end marker is reached: the client's content is a sequence of
      blocks and plain text, balanced except that a stream cut off inside a block leaves it open, followed
      by the relay's own notice if nothing carried it; without the blocks it is the content that was sent,
      with the notice in front on the carrying choice, never twice; and the blocks hold all the reasoning. */
  lemma DisplayedNotice(setup: Setup, notice: string, lines: seq<string>, j: int)
    requires setup.display.Some?
    ensures var given := Chunks.Entries(Decoded(setup.decode, lines));
      var pieces, own := ShownPieces(setup, notice, lines, j), OwnNoticeOf(setup, notice, lines, j);
      var open := OpenAfter(false, Chunks.Own(Noticed(notice, given), j));
      && Contents(Chunks.Own(ClientEntries(Relayed(setup, notice, lines).frames), j))
         == Render(setup.display.value, pieces) + own
      && Scan(false, pieces) == Some(open && !ReachesEnd(setup.decode, lines))
      && PlainText(pieces) + own
         == (if Delivered(setup, lines) && Carrier(given) == j then notice else "") + Contents(Chunks.Own(given, j))
      && InteriorText(pieces) == Reasonings(Chunks.Own(given, j))
  {
    hide Relayed, Decoded, Noticed, ClientEntries, Classify, AllPieces, Pieces, Scan, Render, PlainText, InteriorText,
      FirstCarrier, ClientContent, Contents, Reasonings, ReachesEnd, OpenAfter;
    var given := Chunks.Entries(Decoded(setup.decode, lines));
    var own := Chunks.Own(Noticed(notice, given), j);
    PlainUnderNotice(notice, given, j);
    if ReachesEnd(setup.decode, lines) {
      DisplayedFrames(setup, notice, lines, j);
      BlocksAreBalancedAndConserveText(setup.display.value, Noticed(notice, given), j);
      assert "" + "" == "" && notice + "" == notice && "" + notice == notice;
    } else {
      CutOffFrames(setup, notice, lines, j);
      OwnPieces(setup.display.value, false, own);
      var pieces := Pieces(false, own);
      assert Render(setup.display.value, pieces) + "" == Render(setup.display.value, pieces);
      assert PlainText(pieces) + "" == PlainText(pieces);
    }
  }

  lemma CutOffFrames(setup: Setup, notice: string, lines: seq<string>, j: int)
    requires setup.display.Some? && !ReachesEnd(setup.decode, lines)
    ensures var given := Chunks.Entries(Decoded(setup.decode, lines));
      Contents(Chunks.Own(ClientEntries(Relayed(setup, notice, lines).frames), j))
      == Render(setup.display.value, Pieces(false, Chunks.Own(Noticed(notice, given), j)))
  {
    hide Relayed, Decoded, Noticed, ClientEntries, Classify, RewriteAll, FirstCarrier, ReachesEnd, Contents, Pieces,
      Render, Scan, PlainText, InteriorText, RewriteOwn;
    var given := Chunks.Entries(Decoded(setup.decode, lines));
    RunRelaysDecoded(setup, notice, lines);
    ChoicesAreRewrittenAlone(setup.display.value, {}, Noticed(notice, given), j);
    OwnPieces(setup.display.value, false, Chunks.Own(Noticed(notice, given), j));
  }

  lemma DisplayedFrames(setup: Setup, notice: string, lines: seq<string>, j: int)
    requires setup.display.Some? && ReachesEnd(setup.decode, lines)
    ensures var given := Chunks.Entries(Decoded(setup.decode, lines));
      Contents(Chunks.Own(ClientEntries(Relayed(setup, notice, lines).frames), j))
      == ClientContent(setup.display.value, Noticed(notice, given), j)
         + if FirstCarrier(given) == -1 && j == 0 then notice else ""
  {
    hide Relayed, Decoded, Noticed, ClientEntries, FlushEntries, Classify, RewriteAll, FirstCarrier, ReachesEnd,
      Contents;
    var given := Chunks.Entries(Decoded(setup.decode, lines));
    var own := NoticeOf(Pending(notice, given));
    RunRelaysDecoded(setup, notice, lines);
    var shown := RewriteAll(setup.display.value, {}, Noticed(notice, given));
    var flush := FlushEntries(setup.display.value, shown.open);
    assert shown.entries + (flush + own) == (shown.entries + flush) + own;
    Chunks.OwnConcat(shown.entries + flush, own, j);
    ContentsConcat(Chunks.Own(shown.entries + flush, j), Chunks.Own(own, j));
    OwnNotice(Pending(notice, given), j);
  }

  /** Lines that are not chunks reach the client unchanged, in order; among them are all lines without a
      `data:` field and all data lines that do not decode. */
  lemma OtherLinesPassThrough(setup: Setup, notice: string, lines: seq<string>)
    ensures Verbatims(Relayed(setup, notice, lines).frames) == PassedLines(setup.decode, lines)
    ensures forall line :: !IsPrefix("data:", Trim(line)) ==> Classify(setup.decode, line) == PassedOn
    ensures forall line | IsPrefix("data:", Trim(line)) ::
      var data := Trim(Trim(line)[5..]);
      data != "[DONE]" && setup.decode(data).None? ==> Classify(setup.decode, line) == PassedOn
  {
    hide Trim;
    RunRelaysDecoded(setup, notice, lines);
  }

  // ----- The recorded turn -----

  lemma {:induction false} NoticedPrefix(notice: string, chunks: seq<Chunks.Chunk>, n: nat)
    requires n < |chunks|
    ensures NoticedChunks(notice, chunks)[..n] == NoticedChunks(notice, chunks[..n])
    ensures NoticedChunks(notice, chunks)[n].choices
         == Noticed(Pending(notice, Chunks.Entries(chunks[..n])), chunks[n].choices)
  {
    hide Noticed, Pending;
    var m := |chunks| - 1;
    var before := NoticedChunks(notice, chunks[..m]);
    assert NoticedChunks(notice, chunks)[..m] == before;
    if n < m {
      NoticedPrefix(notice, chunks[..m], n);
      assert chunks[..m][..n] == chunks[..n];
      assert NoticedChunks(notice, chunks)[..n] == before[..n];
    }
  }

  /** Injection moves no entry to another choice. */
  lemma NoticedKeepsOwn(notice: string, entries: seq<Chunks.Choice>, j: int)
    ensures |Chunks.Own(Noticed(notice, entries), j)| == |Chunks.Own(entries, j)|
  {
    hide WithNotice, FirstCarrier, Chunks.IndexOf;
    var k := FirstCarrier(entries);
    if notice != "" && k >= 0 {
      var a, e, b := entries[..k], entries[k], entries[k + 1..];
      assert entries == a + [e] + b && Noticed(notice, entries) == a + [WithNotice(notice, e)] + b;
      KeepsIndex(notice, e);
      Chunks.OwnConcat(a + [e], b, j);
      Chunks.OwnConcat(a + [WithNotice(notice, e)], b, j);
      OwnAppend(a, e, j);
      OwnAppend(a, WithNotice(notice, e), j);
    }
  }

  lemma FinishUnderNotice(notice: string, chunks: seq<Chunks.Chunk>, j: int, n: nat)
    requires n < |chunks|
    ensures FinishedBefore(j, NoticedChunks(notice, chunks), n) <==> FinishedBefore(j, chunks, n)
  {
    hide Noticed, Fold, InjectedInto, NoticedChunks;
    var given := Chunks.Entries(chunks[..n]);
    NoticedPrefix(notice, chunks, n);
    EntriesOfNoticed(notice, chunks[..n]);
    ChoiceIsOwnFold(map[], given, j);
    ChoiceIsOwnFold(map[], Noticed(notice, given), j);
    NoticeOnlyPrefixesContent(notice, given, j);
  }

  lemma OneChoiceUnderNotice(notice: string, chunks: seq<Chunks.Chunk>, j: int)
    requires OneChoice(j, chunks)
    ensures OneChoice(j, NoticedChunks(notice, chunks))
  {
    hide FirstCarrier, WithNotice;
    var given := Chunks.Entries(chunks);
    EntriesOfNoticed(notice, chunks);
    forall e | e in Noticed(notice, given)
      ensures Chunks.IndexOf(e) == j
    {
      var k := FirstCarrier(given);
      if k >= 0 {
        KeepsIndex(notice, given[k]);
        assert given[k] in given;
      }
    }
  }

  lemma QuietUnderNotice(notice: string, chunks: seq<Chunks.Chunk>, j: int)
    requires QuietAfterFinish(j, chunks)
    ensures QuietAfterFinish(j, NoticedChunks(notice, chunks))
  {
    hide FinishedBefore, Noticed, Pending;
    var fed := NoticedChunks(notice, chunks);
    forall n: nat | n < |fed| && FinishedBefore(j, fed, n)
      ensures Chunks.Own(fed[n].choices, j) == []
    {
      FinishUnderNotice(notice, chunks, j, n);
      NoticedPrefix(notice, chunks, n);
      NoticedKeepsOwn(Pending(notice, Chunks.Entries(chunks[..n])), chunks[n].choices, j);
    }
  }

  /** The message that a relayed response leaves in the cache: what was sent, notice included. */
  ghost function RecordedMessage(setup: Setup, notice: string, lines: seq<string>, j: int): Message {
    var given := Chunks.Entries(Decoded(setup.decode, lines));
    var sent := Assembled(given, j);
    sent.(content := Some(InjectedInto(notice, given, j) + sent.content.GetOr("")))
  }

  lemma FedShape(setup: Setup, notice: string, lines: seq<string>, j: int)
    requires QuietAfterFinish(j, Decoded(setup.decode, lines))
    ensures var fed := Relayed(setup, notice, lines).fed;
      && (OneChoice(j, Decoded(setup.decode, lines)) ==> OneChoice(j, fed))
      && QuietAfterFinish(j, fed) && StreamedMessage(j, fed) == RecordedMessage(setup, notice, lines, j)
  {
    hide Relayed, Decoded, NoticedChunks, QuietAfterFinish, OneChoice, Assembled, InjectedInto;
    RunRelaysDecoded(setup, notice, lines);
    if OneChoice(j, Decoded(setup.decode, lines)) {
      OneChoiceUnderNotice(notice, Decoded(setup.decode, lines), j);
    }
    QuietUnderNotice(notice, Decoded(setup.decode, lines), j);
    AccumulatedUnderNotice(setup, notice, lines, j);
  }

  /** From response lines to cache: whatever a relayed one-choice response with a pending notice stores,
      looking up the complete message, notice included, answers as if that message had been recorded
      in one piece; with or without an end marker. */
  lemma RelayedTurnIsRecorded(setup: Setup, notice: string, env: Env, before: seq<Op>, lines: seq<string>,
                              visits: Visits,
                              ops: seq<Op>, j: int, context: RecordingContext)
    requires CacheHistory.Ticking(env) && DistinctScopes(setup.contexts) && context in setup.contexts
    requires OneChoice(j, Decoded(setup.decode, lines)) && QuietAfterFinish(j, Decoded(setup.decode, lines))
    requires RecordedMessage(setup, notice, lines, j).role == Assistant
    requires StoredAtEnd(setup, Relayed(setup, notice, lines).fed, visits, ops)
    requires var tail := MessageOps(RecordedMessage(setup, notice, lines, j), setup.namespace, setup.contexts);
      && RecordedInTime(env, before, tail)
      && (|tail| <= |ops| ==> RecordedInTime(env, before + ops[..|ops| - |tail|], tail))
    ensures var m := RecordedMessage(setup, notice, lines, j);
      Lookup(ApplyAll(env, CacheHistory.EMPTY, before + ops), m, context.scope, Some(setup.namespace), context.messages)
      == Lookup(ApplyAll(env, CacheHistory.EMPTY, before + RecordOps([m], setup.namespace, setup.contexts)), m,
                context.scope, Some(setup.namespace), context.messages)
  {
    hide Relayed, Decoded, ApplyAll, Lookup, RecordOps, MessageOps, RecordedInTime, StreamOps, QuietAfterFinish,
      OneChoice, RecordedMessage, StreamedMessage, DistinctScopes, CacheHistory.Ticking, OrderedOps, VisitsStream;
    FedShape(setup, notice, lines, j);
    OneChoiceOps(j, Relayed(setup, notice, lines).fed, visits, setup.contexts, setup.namespace);
    StreamedLookupAgrees(env, before, j, Relayed(setup, notice, lines).fed, setup.contexts, setup.namespace, context);
  }

  /** The same for responses of several choices, over any store and under any limits: every key of a choice's
      recorded message that no other choice writes holds that choice's reasoning, unless it is evicted. */
  lemma RelayedKeysAreExact(setup: Setup, notice: string, env: Env, table: Table, lines: seq<string>, visits: Visits,
                            ops: seq<Op>, j: int, context: RecordingContext, key: Keys.Key)
    requires DistinctScopes(setup.contexts) && context in setup.contexts
    requires QuietAfterFinish(j, Decoded(setup.decode, lines))
    requires StoredAtEnd(setup, Relayed(setup, notice, lines).fed, visits, ops)
    requires var m := RecordedMessage(setup, notice, lines, j);
      && m.role == Assistant && m.reasoning.Some?
      && key in Keys.MessageKeys(m, context.scope, Some(setup.namespace), context.messages)
    requires var fed := Relayed(setup, notice, lines).fed;
      var others := OwnWrites.WritesOf(map[], StageHistory.AllDecisions(fed, visits, setup.contexts), setup.namespace,
                                       j, false);
      forall op | op in others :: op.Put? && op.key != key
    ensures var rows := ApplyAll(env, table, ops).rows;
      && (key in rows ==> Some(rows[key].reasoning) == RecordedMessage(setup, notice, lines, j).reasoning)
      && (NoEviction(env) ==> key in rows)
  {
    hide Relayed, Decoded, ApplyAll, RecordedMessage, StreamedMessage, QuietAfterFinish, DistinctScopes, NoEviction,
      OrderedOps, AllEnumerate, StageHistory.AllDecisions, OwnWrites.WritesOf, Keys.MessageKeys;
    FedShape(setup, notice, lines, j);
    OwnWrites.OwnKeysAreExact(env, table, Relayed(setup, notice, lines).fed, visits, setup.contexts, setup.namespace,
                              j, context, key);
  }
}
