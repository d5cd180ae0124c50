/** What the display adapter prints: balanced blocks that conserve every piece of text. */
module DisplayBlocks {
  import opened Messages
  import opened AccumulatorFold
  import opened Display
  import Chunks
  import Thinking

  // ----- One choice on its own -----

  datatype Piece = Start | Interior(text: string) | End | Plain(text: string)

  /** What one entry of a choice adds to the client's content. */
  function PiecesOf(open: bool, entry: Chunks.Choice): seq<Piece> {
    (if Mirrors(entry) && !open then [Start] else [])
    + (if Mirrors(entry) then [Interior(ReasoningOf(entry).value)] else [])
    + (if (open || Mirrors(entry)) && Closes(entry) then [End] else [])
    + (if entry.delta.Some? && entry.delta.value.content.Given? then [Plain(entry.delta.value.content.text)] else [])
  }

  function OpenAfter(open: bool, entries: seq<Chunks.Choice>): bool {
    if entries == [] then open else
    var entry := entries[|entries| - 1];
    (OpenAfter(open, entries[..|entries| - 1]) || Mirrors(entry)) && !Closes(entry)
  }

  function Pieces(open: bool, entries: seq<Chunks.Choice>): seq<Piece> {
    if entries == [] then [] else
    var n := |entries| - 1;
    Pieces(open, entries[..n]) + PiecesOf(OpenAfter(open, entries[..n]), entries[n])
  }

  /** With the flush at the end of the stream. */
  function AllPieces(entries: seq<Chunks.Choice>): seq<Piece> {
    Pieces(false, entries) + (if OpenAfter(false, entries) then [End] else [])
  }

  function Render(collapsible: bool, pieces: seq<Piece>): string {
    if pieces == [] then "" else
    Render(collapsible, pieces[..|pieces| - 1]) + PieceText(collapsible, pieces[|pieces| - 1])
  }

  function PieceText(collapsible: bool, piece: Piece): string {
    match piece
    case Start => Thinking.BlockStart(collapsible)
    case Interior(text) => text
    case End => Thinking.BlockEnd(collapsible)
    case Plain(text) => text
  }

  // ----- Balance -----

  /** Reads the pieces with one bit of memory; `None` when a marker or text stands where it must not. */
  function Scan(open: bool, pieces: seq<Piece>): Option<bool> {
    if pieces == [] then Some(open) else
    var before := Scan(open, pieces[..|pieces| - 1]);
    if before.None? then None else ScanOne(before.value, pieces[|pieces| - 1])
  }

  function ScanOne(open: bool, piece: Piece): Option<bool> {
    match piece
    case Start => if open then None else Some(true)
    case Interior(_) => if open then Some(true) else None
    case End => if open then Some(false) else None
    case Plain(_) => if open then None else Some(false)
  }

  function PlainText(pieces: seq<Piece>): string {
    if pieces == [] then "" else
    var last := pieces[|pieces| - 1];
    PlainText(pieces[..|pieces| - 1]) + if last.Plain? then last.text else ""
  }

  function InteriorText(pieces: seq<Piece>): string {
    if pieces == [] then "" else
    var last := pieces[|pieces| - 1];
    InteriorText(pieces[..|pieces| - 1]) + if last.Interior? then last.text else ""
  }

  lemma {:induction false} RenderConcat(collapsible: bool, a: seq<Piece>, b: seq<Piece>)
    ensures Render(collapsible, a + b) == Render(collapsible, a) + Render(collapsible, b)
  {
    hide PieceText;
    if b == [] {
      assert a + b == a;
    } else {
      assert (a + b)[..|a + b| - 1] == a + b[..|b| - 1];
      RenderConcat(collapsible, a, b[..|b| - 1]);
    }
  }

  lemma {:induction false} ScanConcat(open: bool, a: seq<Piece>, b: seq<Piece>)
    requires Scan(open, a).Some?
    ensures Scan(open, a + b) == Scan(Scan(open, a).value, b)
  {
    if b == [] {
      assert a + b == a;
    } else {
      assert (a + b)[..|a + b| - 1] == a + b[..|b| - 1];
      ScanConcat(open, a, b[..|b| - 1]);
    }
  }

  lemma TextAppend(pieces: seq<Piece>, piece: Piece)
    ensures PlainText(pieces + [piece]) == PlainText(pieces) + (if piece.Plain? then piece.text else "")
    ensures InteriorText(pieces + [piece]) == InteriorText(pieces) + (if piece.Interior? then piece.text else "")
  {
    assert (pieces + [piece])[..|pieces|] == pieces;
  }

  lemma NoText()
    ensures PlainText([]) == "" && InteriorText([]) == ""
  {
  }

  lemma {:induction false} TextConcat(a: seq<Piece>, b: seq<Piece>)
    ensures PlainText(a + b) == PlainText(a) + PlainText(b)
    ensures InteriorText(a + b) == InteriorText(a) + InteriorText(b)
  {
    hide PlainText, InteriorText;
    if b == [] {
      NoText();
      assert a + b == a && PlainText(a) + "" == PlainText(a) && InteriorText(a) + "" == InteriorText(a);
    } else {
      var before, last := b[..|b| - 1], b[|b| - 1];
      assert b == before + [last] && a + b == (a + before) + [last];
      TextConcat(a, before);
      TextAppend(before, last);
      TextAppend(a + before, last);
    }
  }

  lemma OnePiece(collapsible: bool, open: bool, piece: Piece)
    ensures Render(collapsible, [piece]) == PieceText(collapsible, piece)
    ensures Scan(open, [piece]) == ScanOne(open, piece)
    ensures PlainText([piece]) == if piece.Plain? then piece.text else ""
    ensures InteriorText([piece]) == if piece.Interior? then piece.text else ""
  {
    hide PieceText, ScanOne;
    assert [piece][..0] == [];
    assert "" + PieceText(collapsible, piece) == PieceText(collapsible, piece);
  }

  // ----- One entry -----

  /** The four slots of an entry's pieces, each empty or a single piece. */
  lemma FourSlots(collapsible: bool, open: bool, a: seq<Piece>, b: seq<Piece>, c: seq<Piece>, d: seq<Piece>)
    ensures Render(collapsible, a + b + c + d)
         == Render(collapsible, a) + Render(collapsible, b) + Render(collapsible, c) + Render(collapsible, d)
    ensures PlainText(a + b + c + d) == PlainText(a) + PlainText(b) + PlainText(c) + PlainText(d)
    ensures InteriorText(a + b + c + d) == InteriorText(a) + InteriorText(b) + InteriorText(c) + InteriorText(d)
  {
    RenderConcat(collapsible, a, b);
    RenderConcat(collapsible, a + b, c);
    RenderConcat(collapsible, a + b + c, d);
    TextConcat(a, b);
    TextConcat(a + b, c);
    TextConcat(a + b + c, d);
  }

  lemma Optional(collapsible: bool, open: bool, present: bool, piece: Piece)
    ensures var slot := if present then [piece] else [];
      && Render(collapsible, slot) == (if present then PieceText(collapsible, piece) else "")
      && Scan(open, slot) == (if present then ScanOne(open, piece) else Some(open))
      && PlainText(slot) == (if present && piece.Plain? then piece.text else "")
      && InteriorText(slot) == (if present && piece.Interior? then piece.text else "")
  {
    hide PieceText, ScanOne;
    OnePiece(collapsible, open, piece);
  }

  /** The four strings whose concatenation an entry prints. */
  lemma EntrySlots(collapsible: bool, open: bool, entry: Chunks.Choice) returns (s: string, r: string, e: string,
      t: string)
    ensures s == if Mirrors(entry) && !open then Thinking.BlockStart(collapsible) else ""
    ensures r == ReasoningOf(entry).GetOr("")
    ensures e == if (open || Mirrors(entry)) && Closes(entry) then Thinking.BlockEnd(collapsible) else ""
    ensures t == ContentOf(entry)
    ensures Render(collapsible, PiecesOf(open, entry)) == s + r + e + t
    ensures PlainText(PiecesOf(open, entry)) == "" + "" + "" + t
    ensures InteriorText(PiecesOf(open, entry)) == "" + r + "" + ""
  {
    hide Thinking.BlockStart, Thinking.BlockEnd, Render, Scan, PlainText, InteriorText;
    t := ContentOf(entry);
    r := ReasoningOf(entry).GetOr("");
    var hasText := entry.delta.Some? && entry.delta.value.content.Given?;
    var closes := (open || Mirrors(entry)) && Closes(entry);
    s := if Mirrors(entry) && !open then Thinking.BlockStart(collapsible) else "";
    e := if closes then Thinking.BlockEnd(collapsible) else "";
    Optional(collapsible, open, Mirrors(entry) && !open, Start);
    Optional(collapsible, true, Mirrors(entry), Interior(r));
    Optional(collapsible, true, closes, End);
    Optional(collapsible, false, hasText, Plain(t));
    FourSlots(collapsible, open,
      if Mirrors(entry) && !open then [Start] else [],
      if Mirrors(entry) then [Interior(r)] else [],
      if closes then [End] else [],
      if hasText then [Plain(t)] else []);
  }

  /** What an entry prints is what the adapter puts into its content. */
  lemma EntryText(collapsible: bool, open: bool, entry: Chunks.Choice)
    ensures Render(collapsible, PiecesOf(open, entry)) == ContentOf(RewriteEntry(collapsible, open, entry).entry)
    ensures PlainText(PiecesOf(open, entry)) == ContentOf(entry)
    ensures InteriorText(PiecesOf(open, entry)) == ReasoningOf(entry).GetOr("")
  {
    hide Thinking.BlockStart, Thinking.BlockEnd, Render, PiecesOf, PlainText, InteriorText;
    var s, r, e, t := EntrySlots(collapsible, open, entry);
    assert s + r + e + t == ContentOf(RewriteEntry(collapsible, open, entry).entry);
  }

  /** An entry's pieces fit the state before it and leave the state after it. */
  lemma EntryBalanced(open: bool, entry: Chunks.Choice)
    ensures Scan(open, PiecesOf(open, entry)) == Some((open || Mirrors(entry)) && !Closes(entry))
  {
    hide Scan, PieceText, Mirrors;
    var mirrors, hasText := Mirrors(entry), entry.delta.Some? && entry.delta.value.content.Given?;
    var within := open || mirrors;
    var closes := within && Closes(entry);
    var reasoning, text := ReasoningOf(entry).GetOr(""), ContentOf(entry);
    var start, interior := if mirrors && !open then [Start] else [], if mirrors then [Interior(reasoning)] else [];
    var end, plain := if closes then [End] else [], if hasText then [Plain(text)] else [];
    assert PiecesOf(open, entry) == start + interior + end + plain by { MirrorsReasoning(entry); }
    hide PiecesOf;
    Optional(false, open, mirrors && !open, Start);
    Optional(false, within, mirrors, Interior(reasoning));
    Optional(false, within, closes, End);
    Optional(false, within && !closes, hasText, Plain(text));
    ScanConcat(open, start, interior);
    ScanConcat(open, start + interior, end);
    ScanConcat(open, start + interior + end, plain);
  }

  lemma MirrorsReasoning(entry: Chunks.Choice)
    ensures Mirrors(entry) ==> ReasoningOf(entry) == Some(ReasoningOf(entry).GetOr(""))
  {
  }

  // ----- One choice's whole stream -----

  function RewriteOwn(collapsible: bool, open: bool, entries: seq<Chunks.Choice>): seq<Chunks.Choice> {
    if entries == [] then [] else
    var n := |entries| - 1;
    RewriteOwn(collapsible, open, entries[..n])
    + [RewriteEntry(collapsible, OpenAfter(open, entries[..n]), entries[n]).entry]
  }

  lemma ContentsAppend(entries: seq<Chunks.Choice>, entry: Chunks.Choice)
    ensures Contents(entries + [entry]) == Contents(entries) + ContentOf(entry)
  {
    assert (entries + [entry])[..|entries|] == entries;
  }

  /** The pieces of a choice are balanced, conserve content and reasoning, and are what is printed. */
  lemma {:induction false} OwnPieces(collapsible: bool, open: bool, entries: seq<Chunks.Choice>)
    ensures Scan(open, Pieces(open, entries)) == Some(OpenAfter(open, entries))
    ensures PlainText(Pieces(open, entries)) == Contents(entries)
    ensures InteriorText(Pieces(open, entries)) == Reasonings(entries)
    ensures Render(collapsible, Pieces(open, entries)) == Contents(RewriteOwn(collapsible, open, entries))
  {
    hide PiecesOf, RewriteEntry, Mirrors, Closes, ContentOf, ReasoningOf;
    if entries != [] {
      var n, before := |entries| - 1, entries[..|entries| - 1];
      OwnPieces(collapsible, open, before);
      var was, entry := OpenAfter(open, before), entries[n];
      EntryText(collapsible, was, entry);
      EntryBalanced(was, entry);
      ScanConcat(open, Pieces(open, before), PiecesOf(was, entry));
      TextConcat(Pieces(open, before), PiecesOf(was, entry));
      RenderConcat(collapsible, Pieces(open, before), PiecesOf(was, entry));
      ContentsAppend(RewriteOwn(collapsible, open, before), RewriteEntry(collapsible, was, entry).entry);
    }
  }

  lemma EntryKeepsIndex(collapsible: bool, open: bool, entry: Chunks.Choice)
    ensures Chunks.IndexOf(RewriteEntry(collapsible, open, entry).entry) == Chunks.IndexOf(entry)
    ensures RewriteEntry(collapsible, open, entry).open == ((open || Mirrors(entry)) && !Closes(entry))
  {
  }

  lemma OwnAppend(entries: seq<Chunks.Choice>, entry: Chunks.Choice, j: int)
    ensures Chunks.Own(entries + [entry], j)
         == if Chunks.IndexOf(entry) == j then Chunks.Own(entries, j) + [entry] else Chunks.Own(entries, j)
  {
    assert (entries + [entry])[..|entries|] == entries;
  }

  lemma RewriteOwnAppend(collapsible: bool, open: bool, own: seq<Chunks.Choice>, entry: Chunks.Choice)
    ensures var one := RewriteEntry(collapsible, OpenAfter(open, own), entry);
      && RewriteOwn(collapsible, open, own + [entry]) == RewriteOwn(collapsible, open, own) + [one.entry]
      && OpenAfter(open, own + [entry]) == one.open
  {
    hide RewriteEntry, Mirrors, Closes;
    EntryKeepsIndex(collapsible, OpenAfter(open, own), entry);
    assert (own + [entry])[..|own|] == own;
  }

  /** Each choice is rewritten as if it were alone, and the open set is exact. */
  lemma {:induction false} ChoicesAreRewrittenAlone(collapsible: bool, open: set<int>, entries: seq<Chunks.Choice>,
                                                    j: int)
    ensures var r := RewriteAll(collapsible, open, entries); var own := Chunks.Own(entries, j);
      && Chunks.Own(r.entries, j) == RewriteOwn(collapsible, j in open, own)
      && (j in r.open <==> OpenAfter(j in open, own))
  {
    hide RewriteEntry, Mirrors, Closes, Chunks.IndexOf, RewriteOwn, OpenAfter, Chunks.Own;
    if entries == [] {
      NothingRewritten(collapsible, j in open, j);
    } else {
      var n := |entries| - 1;
      ChoicesAreRewrittenAlone(collapsible, open, entries[..n], j);
      var before, own := RewriteAll(collapsible, open, entries[..n]), Chunks.Own(entries[..n], j);
      var was := Chunks.IndexOf(entries[n]) in before.open;
      EntryKeepsIndex(collapsible, was, entries[n]);
      OwnAppend(before.entries, RewriteEntry(collapsible, was, entries[n]).entry, j);
      assert entries == entries[..n] + [entries[n]];
      OwnAppend(entries[..n], entries[n], j);
      RewriteOwnAppend(collapsible, j in open, own, entries[n]);
    }
  }

  lemma NothingRewritten(collapsible: bool, open: bool, j: int)
    ensures Chunks.Own([], j) == [] && RewriteOwn(collapsible, open, []) == [] && OpenAfter(open, []) == open
  {
  }

  /** Rewriting chunk by chunk is rewriting the whole stream. */
  lemma {:induction false} RewriteAllConcat(collapsible: bool, open: set<int>, a: seq<Chunks.Choice>,
                                            b: seq<Chunks.Choice>)
    ensures var x := RewriteAll(collapsible, open, a); var y := RewriteAll(collapsible, x.open, b);
      RewriteAll(collapsible, open, a + b) == Rewriting(x.entries + y.entries, y.open)
  {
    hide RewriteEntry;
    if b == [] {
      assert a + b == a;
    } else {
      var n := |b| - 1;
      assert (a + b)[..|a| + n] == a + b[..n];
      RewriteAllConcat(collapsible, open, a, b[..n]);
    }
  }

  // ----- The flush -----

  lemma {:induction false} FlushOfChoice(collapsible: bool, order: seq<int>, j: int)
    requires StrictlyIncreasing(order)
    ensures Contents(Chunks.Own(ClosingEntries(collapsible, order), j))
         == if j in order then Thinking.BlockEnd(collapsible) else ""
  {
    hide Thinking.BlockEnd, ClosingEntries, StrictlyIncreasing, Contents, Chunks.Own, ClosingEntry;
    if order == [] {
      NothingFlushed(collapsible, j);
    } else {
      var n := |order| - 1;
      var flush, entry := ClosingEntries(collapsible, order[..n]), ClosingEntry(collapsible, order[n]);
      LastOfIncreasing(order, j);
      FlushOfChoice(collapsible, order[..n], j);
      assert order == order[..n] + [order[n]];
      ClosingAppend(collapsible, order[..n], order[n]);
      OwnAppend(flush, entry, j);
      ContentsAppend(Chunks.Own(flush, j), entry);
      ClosingContent(collapsible, order[n]);
    }
  }

  lemma NothingFlushed(collapsible: bool, j: int)
    ensures Contents(Chunks.Own(ClosingEntries(collapsible, []), j)) == ""
  {
  }

  lemma ClosingContent(collapsible: bool, j: int)
    ensures ContentOf(ClosingEntry(collapsible, j)) == Thinking.BlockEnd(collapsible)
    ensures Chunks.IndexOf(ClosingEntry(collapsible, j)) == j
    ensures "" + Thinking.BlockEnd(collapsible) == Thinking.BlockEnd(collapsible)
  {
    hide Thinking.BlockEnd;
  }

  lemma LastOfIncreasing(order: seq<int>, j: int)
    requires order != [] && StrictlyIncreasing(order)
    ensures var n := |order| - 1;
      && StrictlyIncreasing(order[..n])
      && (j in order <==> j in order[..n] || j == order[n])
      && !(j in order[..n] && j == order[n])
  {
    assert order == order[..|order| - 1] + [order[|order| - 1]];
  }

  lemma ContentsConcat(a: seq<Chunks.Choice>, b: seq<Chunks.Choice>)
    ensures Contents(a + b) == Contents(a) + Contents(b)
  {
    hide ContentOf;
    if b == [] {
      assert a + b == a;
    } else {
      var n := |b| - 1;
      assert (a + b)[..|a| + n] == a + b[..n];
      ContentsConcat(a, b[..n]);
      Reassociate(Contents(a), Contents(b[..n]), ContentOf(b[n]));
    }
  }

  /** Everything the client receives as content of choice `j`, the flush included. */
  ghost function ClientContent(collapsible: bool, entries: seq<Chunks.Choice>, j: int): string {
    var r := RewriteAll(collapsible, {}, entries);
    Contents(Chunks.Own(r.entries + FlushEntries(collapsible, r.open), j))
  }

  lemma ClientContentIsPieces(collapsible: bool, entries: seq<Chunks.Choice>, j: int)
    ensures ClientContent(collapsible, entries, j) == Render(collapsible, AllPieces(Chunks.Own(entries, j)))
  {
    hide Thinking.BlockEnd, Thinking.BlockStart, RewriteAll, RewriteOwn, Pieces, Render, Scan, PlainText, InteriorText,
      ClosingEntry, Contents, OpenAfter, Ascending, ClosingEntries, Chunks.Own, StrictlyIncreasing, Reasonings;
    var r, own := RewriteAll(collapsible, {}, entries), Chunks.Own(entries, j);
    ChoicesAreRewrittenAlone(collapsible, {}, entries, j);
    Chunks.OwnConcat(r.entries, FlushEntries(collapsible, r.open), j);
    ContentsConcat(Chunks.Own(r.entries, j), Chunks.Own(FlushEntries(collapsible, r.open), j));
    FlushOfChoice(collapsible, Ascending(r.open), j);
    OwnPieces(collapsible, false, own);
    RenderConcat(collapsible, Pieces(false, own), if OpenAfter(false, own) then [End] else []);
    Optional(collapsible, true, OpenAfter(false, own), End);
  }

  /** For every stream, however its choices interleave, and every choice: what the client receives is
      a balanced sequence of blocks and plain text that finishes closed; without the blocks it is the
      original content; inside the blocks it is all the reasoning; and before the flush the adapter's
      open set held the choice exactly when its last start marker was unmatched. */
  lemma BlocksAreBalancedAndConserveText(collapsible: bool, entries: seq<Chunks.Choice>, j: int)
    ensures var own := Chunks.Own(entries, j); var pieces := AllPieces(own);
      && ClientContent(collapsible, entries, j) == Render(collapsible, pieces)
      && Scan(false, pieces) == Some(false)
      && PlainText(pieces) == Contents(own)
      && InteriorText(pieces) == Reasonings(own)
      && Scan(false, Pieces(false, own)) == Some(j in RewriteAll(collapsible, {}, entries).open)
  {
    hide Thinking.BlockEnd, Thinking.BlockStart;
    var own := Chunks.Own(entries, j);
    var end := if OpenAfter(false, own) then [End] else [];
    ClientContentIsPieces(collapsible, entries, j);
    ChoicesAreRewrittenAlone(collapsible, {}, entries, j);
    OwnPieces(collapsible, false, own);
    OnePiece(collapsible, true, End);
    ScanConcat(false, Pieces(false, own), end);
    TextConcat(Pieces(false, own), end);
  }
}
