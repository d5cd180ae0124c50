/** What the scanner takes for a thinking block, told from the pieces of the text. */
module ThinkingTags {
  import opened Messages
  import opened Thinking

  // ----- Letters and white space -----

  /** The characters that stand for a letter of a tag: the letter in either case, and for k and s the two
      characters that fold to them. */
  predicate StandsFor(c: char, letter: char) {
    || c == letter
    || ('a' <= letter <= 'z' && c as int + 32 == letter as int)
    || (letter == 'k' && c == '\U{212A}')
    || (letter == 's' && c == '\U{017F}')
  }

  predicate Small(c: char) {
    !('A' <= c <= 'Z') && c != '\U{212A}' && c != '\U{017F}'
  }

  lemma FoldIff(c: char, letter: char)
    requires Small(letter)
    ensures Fold(c) == letter <==> StandsFor(c, letter)
  {
  }

  /** `t` reads as the lower-case `tag`, in any case. */
  predicate Reads(tag: string, t: string) {
    |t| == |tag| && forall k | 0 <= k < |tag| :: StandsFor(t[k], tag[k])
  }

  lemma AtIff(tag: string, s: string, i: nat)
    requires forall k | 0 <= k < |tag| :: Small(tag[k])
    ensures At(tag, s, i) <==> i + |tag| <= |s| && Reads(tag, s[i..i + |tag|])
  {
    hide Fold, StandsFor, Small;
    if i + |tag| <= |s| {
      forall k | 0 <= k < |tag|
        ensures Fold(s[i + k]) == tag[k] <==> StandsFor(s[i..i + |tag|][k], tag[k])
      {
        FoldIff(s[i + k], tag[k]);
      }
    }
  }

  predicate WordChar(c: char) {
    'a' <= c <= 'z' || 'A' <= c <= 'Z' || '0' <= c <= '9' || c == '_'
  }

  predicate Blank(c: char) {
    c == ' ' || c == '\t' || c == '\n' || c == '\U{0C}' || c == '\r'
  }

  predicate AllBlank(s: string) {
    forall i | 0 <= i < |s| :: Blank(s[i])
  }

  /** `t` is an opening tag whose bracket and name read as `name`: behind the name is a word boundary, and the
      tag ends at its first `>`. */
  ghost predicate IsTag(name: string, t: string) {
    && |t| > |name| > 0 && Reads(name, t[..|name|])
    && WordChar(t[|name| - 1]) != WordChar(t[|name|])
    && t[|t| - 1] == '>' && '>' !in t[|name|..|t| - 1]
  }

  /** `t` opens a thinking block: a `think` or a `thinking` tag, with any attributes. */
  ghost predicate OpensThinking(t: string) {
    IsTag("<think", t) || IsTag("<thinking", t)
  }

  lemma AfterTagIff(s: string, i: nat, n: nat)
    requires i <= |s|
    ensures AfterTag(s, i) == Some(n) <==> i < n <= |s| && s[n - 1] == '>' && '>' !in s[i..n - 1]
    decreases |s| - i
  {
    if i < |s| {
      if s[i] != '>' {
        AfterTagIff(s, i + 1, n);
        if i + 1 < n <= |s| {
          assert s[i..n - 1] == [s[i]] + s[i + 1..n - 1];
        }
      } else if i + 1 < n <= |s| {
        assert s[i..n - 1][0] == '>';
      }
    }
  }

  lemma SmallNames()
    ensures forall k | 0 <= k < 6 :: Small("<think"[k])
    ensures forall k | 0 <= k < 9 :: Small("<thinking"[k])
    ensures forall k | 0 <= k < 8 :: Small("<details"[k])
    ensures forall k | 0 <= k < 8 :: Small("<summary"[k])
    ensures forall k | 0 <= k < 8 :: Small("thinking"[k])
    ensures forall k | 0 <= k < 10 :: Small("</summary>"[k])
    ensures forall k | 0 <= k < 8 :: Small("</think>"[k])
    ensures forall k | 0 <= k < 11 :: Small("</thinking>"[k])
    ensures forall k | 0 <= k < 10 :: Small("</details>"[k])
  {
  }

  lemma SliceOfSlice(s: string, i: nat, n: nat, a: nat, b: nat)
    requires i <= n <= |s| && a <= b <= n - i
    ensures s[i..n][a..b] == s[i + a..i + b]
  {
    var t := s[i..n];
    assert forall k | 0 <= k < b - a :: t[a..b][k] == t[a + k] == s[i + a + k];
  }

  lemma TagByOffsets(name: string, s: string, i: nat, n: nat)
    requires name != "" && i + |name| < n <= |s|
    ensures IsTag(name, s[i..n])
       <==> && Reads(name, s[i..i + |name|]) && WordChar(s[i + |name| - 1]) != WordChar(s[i + |name|])
            && s[n - 1] == '>' && '>' !in s[i + |name|..n - 1]
  {
    hide Reads, WordChar;
    var t := s[i..n];
    assert t[..|name|] == t[0..|name|];
    SliceOfSlice(s, i, n, 0, |name|);
    SliceOfSlice(s, i, n, |name|, |t| - 1);
  }

  /** Opening tags: a scan from position `i` finds the tag that the text has there, and nothing else. */
  lemma TagIff(name: string, s: string, i: nat, n: nat)
    requires name != "" && forall k | 0 <= k < |name| :: Small(name[k])
    ensures At(name, s, i) && Boundary(s, i + |name|) && AfterTag(s, i + |name|) == Some(n)
       <==> i <= n <= |s| && IsTag(name, s[i..n])
  {
    hide At, Reads, Small, AfterTag;
    AtIff(name, s, i);
    if i + |name| <= |s| {
      AfterTagIff(s, i + |name|, n);
    }
    if i + |name| < n <= |s| {
      hide IsTag;
      TagByOffsets(name, s, i, n);
    }
  }

  lemma LongerNameEndsLater(s: string)
    requires At("<thinking", s, 0)
    ensures AfterTag(s, 6) == AfterTag(s, 9) && At("<think", s, 0)
  {
    assert "<thinking"[6] == 'i' && "<thinking"[7] == 'n' && "<thinking"[8] == 'g';
    assert Fold(s[0 + 6]) == 'i' && Fold(s[0 + 7]) == 'n' && Fold(s[0 + 8]) == 'g';
    assert AfterTag(s, 6) == AfterTag(s, 7) == AfterTag(s, 8) == AfterTag(s, 9);
    assert forall k | 0 <= k < 6 :: "<think"[k] == "<thinking"[k];
  }

  /** A thinking block opens with a `think` or `thinking` tag, in any case and with any attributes, and with
      nothing else. */
  lemma OpenThinkIff(s: string, n: nat)
    ensures OpenThink(s) == Some(n) <==> n <= |s| && OpensThinking(s[..n])
  {
    hide At, AfterTag, IsTag, Boundary;
    SmallNames();
    TagIff("<think", s, 0, n);
    TagIff("<thinking", s, 0, n);
    assert n <= |s| ==> s[0..n] == s[..n];
    if At("<thinking", s, 0) {
      LongerNameEndsLater(s);
    }
  }

  /** A collapsible block opens with a `details` tag, a `summary` tag, the title and the end of the summary,
      with white space between them. */
  ghost predicate OpensDetails(t: string) {
    exists a: nat, b: nat, c: nat, d: nat, e: nat :: DetailsPieces(t, a, b, c, d, e)
  }

  ghost predicate DetailsPieces(t: string, a: nat, b: nat, c: nat, d: nat, e: nat) {
    && a <= b <= c <= d <= e && d + 8 <= e && e + 10 == |t|
    && IsTag("<details", t[..a]) && AllBlank(t[a..b])
    && IsTag("<summary", t[b..c]) && AllBlank(t[c..d])
    && Reads("thinking", t[d..d + 8]) && AllBlank(t[d + 8..e])
    && Reads("</summary>", t[e..e + 10])
  }

  lemma AfterSpaceIff(s: string, i: nat, r: nat)
    requires i <= |s|
    ensures AfterSpace(s, i) == r <==> i <= r <= |s| && AllBlank(s[i..r]) && (r == |s| || !Blank(s[r]))
  {
    var m := AfterSpace(s, i);
    assert forall k | i <= k < m :: s[k] == s[i..m][k - i];
    if i <= r <= |s| {
      assert forall k | i <= k < r :: s[k] == s[i..r][k - i];
    }
  }

  /** The same pieces, told by offsets into the whole text. */
  ghost predicate TagsAt(s: string, a: nat, b: nat, c: nat) {
    a <= b <= c <= |s| && IsTag("<details", s[0..a]) && AllBlank(s[a..b]) && IsTag("<summary", s[b..c])
  }

  ghost predicate TitleAt(s: string, c: nat, d: nat, e: nat) {
    && c <= d && d + 8 <= e && e + 10 <= |s|
    && AllBlank(s[c..d]) && Reads("thinking", s[d..d + 8])
    && AllBlank(s[d + 8..e]) && Reads("</summary>", s[e..e + 10])
  }

  ghost predicate TagsScanned(s: string, a: nat, b: nat, c: nat) {
    && At("<details", s, 0) && Boundary(s, 8) && AfterTag(s, 8) == Some(a) && AfterSpace(s, a) == b
    && At("<summary", s, b) && Boundary(s, b + 8) && AfterTag(s, b + 8) == Some(c)
  }

  ghost predicate TitleScanned(s: string, c: nat, d: nat, e: nat)
    requires c <= |s|
  {
    AfterSpace(s, c) == d && At("thinking", s, d) && AfterSpace(s, d + 8) == e && At("</summary>", s, e)
  }

  ghost predicate ScannedAt(s: string, a: nat, b: nat, c: nat, d: nat, e: nat) {
    TagsScanned(s, a, b, c) && TitleScanned(s, c, d, e)
  }

  lemma ScannedIff(s: string, n: nat)
    ensures OpenDetails(s) == Some(n)
       <==> exists a: nat, b: nat, c: nat, d: nat, e: nat :: ScannedAt(s, a, b, c, d, e) && n == e + 10
  {
    hide At, AfterTag, Boundary, AfterSpace;
    if OpenDetails(s) == Some(n) {
      var a := AfterTag(s, 8).value;
      var b := AfterSpace(s, a);
      var c := AfterTag(s, b + 8).value;
      var d := AfterSpace(s, c);
      assert ScannedAt(s, a, b, c, d, AfterSpace(s, d + 8));
    }
  }

  lemma SlicesOfFront(s: string, a: nat, b: nat, c: nat, d: nat, e: nat)
    requires e + 10 <= |s|
    ensures DetailsPieces(s[..e + 10], a, b, c, d, e) <==> TagsAt(s, a, b, c) && TitleAt(s, c, d, e)
  {
    hide IsTag, AllBlank, Reads;
    if a <= b <= c <= d <= e && d + 8 <= e {
      var n := e + 10;
      assert s[0..n] == s[..n] && s[..n][..a] == s[..n][0..a];
      SliceOfSlice(s, 0, n, 0, a);
      SliceOfSlice(s, 0, n, a, b);
      SliceOfSlice(s, 0, n, b, c);
      SliceOfSlice(s, 0, n, c, d);
      SliceOfSlice(s, 0, n, d, d + 8);
      SliceOfSlice(s, 0, n, d + 8, e);
      SliceOfSlice(s, 0, n, e, n);
    }
  }

  lemma BlankUntil(s: string, i: nat, r: nat)
    requires i <= r < |s| && !Blank(s[r])
    ensures AllBlank(s[i..r]) <==> AfterSpace(s, i) == r
  {
    AfterSpaceIff(s, i, r);
  }

  /** A tag or a title at an offset begins with a character that is not white space. */
  lemma PieceStarts(s: string, i: nat)
    ensures At("<summary", s, i) || At("</summary>", s, i) || At("thinking", s, i) ==> i < |s| && !Blank(s[i])
  {
    SmallNames();
    assert "<summary"[0] == '<' && "</summary>"[0] == '<' && "thinking"[0] == 't';
    assert i + 0 < |s| ==> !(Blank(s[i + 0]) && (Fold(s[i + 0]) == '<' || Fold(s[i + 0]) == 't'));
  }

  lemma TagsIff(s: string, a: nat, b: nat, c: nat)
    ensures TagsScanned(s, a, b, c) <==> TagsAt(s, a, b, c)
  {
    hide At, AfterTag, IsTag, Boundary, AfterSpace, AllBlank, Blank, Small;
    SmallNames();
    TagIff("<details", s, 0, a);
    TagIff("<summary", s, b, c);
    PieceStarts(s, b);
    if a <= b < |s| && !Blank(s[b]) {
      BlankUntil(s, a, b);
    }
  }

  lemma TitleIff(s: string, c: nat, d: nat, e: nat)
    requires c <= |s|
    ensures TitleScanned(s, c, d, e) <==> TitleAt(s, c, d, e)
  {
    hide At, AfterSpace, Reads, AllBlank, Blank, Small;
    SmallNames();
    AtIff("thinking", s, d);
    AtIff("</summary>", s, e);
    PieceStarts(s, d);
    PieceStarts(s, e);
    if c <= d < |s| && !Blank(s[d]) {
      BlankUntil(s, c, d);
    }
    if d + 8 <= e < |s| && !Blank(s[e]) {
      BlankUntil(s, d + 8, e);
    }
  }

  lemma PiecesAreFound(s: string, a: nat, b: nat, c: nat, d: nat, e: nat)
    requires e + 10 <= |s| && DetailsPieces(s[..e + 10], a, b, c, d, e)
    ensures ScannedAt(s, a, b, c, d, e)
  {
    hide DetailsPieces, TagsScanned, TitleScanned, TagsAt, TitleAt;
    SlicesOfFront(s, a, b, c, d, e);
    TagsIff(s, a, b, c);
    assert c <= |s| by { TagsEnd(s, a, b, c); }
    TitleIff(s, c, d, e);
  }

  lemma TagsEnd(s: string, a: nat, b: nat, c: nat)
    ensures TagsAt(s, a, b, c) || TagsScanned(s, a, b, c) ==> c <= |s|
  {
    hide At, IsTag, AllBlank, AfterSpace;
  }

  lemma FoundArePieces(s: string, a: nat, b: nat, c: nat, d: nat, e: nat)
    requires ScannedAt(s, a, b, c, d, e)
    ensures e + 10 <= |s| && DetailsPieces(s[..e + 10], a, b, c, d, e)
  {
    hide DetailsPieces, TagsScanned, TitleScanned, TagsAt;
    TagsEnd(s, a, b, c);
    TagsIff(s, a, b, c);
    TitleIff(s, c, d, e);
    SlicesOfFront(s, a, b, c, d, e);
  }

  /** A collapsible block opens with exactly these pieces. */
  lemma OpenDetailsIff(s: string, n: nat)
    ensures OpenDetails(s) == Some(n) <==> n <= |s| && OpensDetails(s[..n])
  {
    hide OpenDetails, ScannedAt, DetailsPieces;
    ScannedIff(s, n);
    if OpenDetails(s) == Some(n) {
      var a: nat, b: nat, c: nat, d: nat, e: nat :| ScannedAt(s, a, b, c, d, e) && n == e + 10;
      FoundArePieces(s, a, b, c, d, e);
    }
    if n <= |s| && OpensDetails(s[..n]) {
      var a: nat, b: nat, c: nat, d: nat, e: nat :| DetailsPieces(s[..n], a, b, c, d, e);
      assert n == e + 10 by { PiecesEnd(s[..n], a, b, c, d, e); }
      PiecesAreFound(s, a, b, c, d, e);
    }
  }

  lemma PiecesEnd(t: string, a: nat, b: nat, c: nat, d: nat, e: nat)
    requires DetailsPieces(t, a, b, c, d, e)
    ensures |t| == e + 10
  {
    hide IsTag, AllBlank, Reads;
  }

  // ----- Whole blocks -----

  /** A closing tag of the given style; the two names of the plain style may be mixed. */
  predicate ClosesBlock(details: bool, t: string) {
    if details then Reads("</details>", t) else Reads("</think>", t) || Reads("</thinking>", t)
  }

  /** No closing tag begins between the offsets `from` and `to` of `s`. */
  ghost predicate NotClosedBetween(details: bool, s: string, from: nat, to: nat) {
    forall i, m | from <= i < to && i <= m <= |s| :: !ClosesBlock(details, s[i..m])
  }

  ghost predicate OpensBlock(details: bool, t: string) {
    if details then OpensDetails(t) else OpensThinking(t)
  }

  lemma ClosingTagIff(details: bool, s: string, i: nat, n: nat)
    requires n > 0
    ensures ClosingTag(details, s, i) == n <==> i + n <= |s| && ClosesBlock(details, s[i..i + n])
  {
    hide Reads, At;
    SmallNames();
    AtIff("</think>", s, i);
    AtIff("</thinking>", s, i);
    AtIff("</details>", s, i);
    if i + n <= |s| {
      LengthOfClosing(details, s, i, n);
    }
    ShorterIsOther(s, i);
  }

  lemma LengthOfClosing(details: bool, s: string, i: nat, n: nat)
    requires i + n <= |s|
    ensures ClosesBlock(details, s[i..i + n]) ==> n == 8 || n == 10 || n == 11
    ensures Reads("</think>", s[i..i + n]) ==> n == 8
    ensures Reads("</thinking>", s[i..i + n]) ==> n == 11
    ensures Reads("</details>", s[i..i + n]) ==> n == 10
  {
  }

  lemma ShorterIsOther(s: string, i: nat)
    ensures !(At("</think>", s, i) && At("</thinking>", s, i))
  {
    assert "</think>"[7] == '>' && "</thinking>"[7] == 'i';
    assert i + 7 < |s| ==> !(Fold(s[i + 7]) == '>' && Fold(s[i + 7]) == 'i');
  }

  lemma StylesDiffer(s: string)
    ensures OpenDetails(s).Some? ==> OpenThink(s).None?
  {
    assert "<details"[1] == 'd' && "<think"[1] == "<thinking"[1] == 't';
    assert 1 < |s| ==> !(Fold(s[0 + 1]) == 'd' && Fold(s[0 + 1]) == 't');
  }

  lemma OpensIff(details: bool, s: string, n: nat)
    requires n <= |s| && OpensBlock(details, s[..n])
    ensures Opens(details, s, n)
  {
    hide OpenThink, OpenDetails, OpensThinking, OpensDetails;
    OpenThinkIff(s, n);
    OpenDetailsIff(s, n);
    StylesDiffer(s);
  }

  /** The lazy body runs to the first closing tag. */
  lemma BodyRunsTo(details: bool, s: string, open: nat, end: nat)
    requires open <= end <= |s| && NotClosedBetween(details, s, open, end)
    ensures AfterBody(details, s, open) == AfterBody(details, s, end)
  {
    hide ClosingTag, ClosesBlock;
    forall i | open <= i < end
      ensures ClosingTag(details, s, i) == 0
    {
      if ClosingTag(details, s, i) > 0 {
        ClosingTagIff(details, s, i, ClosingTag(details, s, i));
      }
    }
    AfterBodySkips(details, s, open, end);
  }

  lemma BodyEndsWith(details: bool, s: string, end: nat, n: nat)
    requires end + n <= |s| && ClosesBlock(details, s[end..end + n])
    ensures AfterBody(details, s, end) == end + n
  {
    hide ClosingTag, Reads;
    assert n > 0 by { LengthOfClosing(details, s, end, n); }
    ClosingTagIff(details, s, end, n);
  }

  /** The body of a block, told by offsets. */
  lemma BodyInside(details: bool, open: string, tail: string, n: nat)
    requires n <= |tail| && NotClosedBetween(details, tail, 0, n)
    ensures NotClosedBetween(details, open + tail, |open|, |open| + n)
  {
    hide ClosesBlock;
    var s := open + tail;
    forall i, m | |open| <= i < |open| + n && i <= m <= |s|
      ensures !ClosesBlock(details, s[i..m])
    {
      assert s[i..m] == tail[i - |open|..m - |open|];
    }
  }

  /** A block, told by offsets: its opening tag, its body, its closing tag and white space. */
  lemma BlockByOffsets(details: bool, s: string, open: nat, end: nat, after: nat, stop: nat)
    requires open <= end <= after <= stop <= |s| && OpensBlock(details, s[..open])
    requires NotClosedBetween(details, s, open, end) && ClosesBlock(details, s[end..after])
    requires AllBlank(s[after..stop]) && (stop == |s| || !Blank(s[stop]))
    ensures Block(s) == Some(stop)
  {
    hide OpensBlock, ClosesBlock, NotClosedBetween, Block, AfterBody, AfterSpace, AllBlank, Blank, Opens;
    OpensIff(details, s, open);
    BlockOpens(details, s, open);
    BodyRunsTo(details, s, open, end);
    BodyEndsWith(details, s, end, after - end);
    AfterSpaceIff(s, after, stop);
  }

  lemma Parts(a: string, b: string, c: string, d: string, e: string)
    ensures var s, i, k := a + (b + (c + (d + e))), |a| + |b| + |c|, |a| + |b| + |c| + |d|;
      |s| == k + |e| && s[..|a|] == a && s[|a| + |b|..i] == c && s[i..k] == d && s[k..] == e
  {
    var s, i := a + (b + (c + (d + e))), |a| + |b|;
    assert forall m | 0 <= m < |c| + (|d| + |e|) :: s[i + m] == (c + (d + e))[m];
  }

  /** A block of either style, whatever the case and the attributes of its tags, is removed with the white space
      behind it; its body ends at the first closing tag. */
  lemma BlockIsRemoved(details: bool, open: string, body: string, close: string, space: string, rest: string)
    requires OpensBlock(details, open) && ClosesBlock(details, close)
    requires NotClosedBetween(details, body + (close + (space + rest)), 0, |body|)
    requires AllBlank(space) && (rest == "" || !Blank(rest[0]))
    ensures RemoveBlocks(open + (body + (close + (space + rest)))) == RemoveBlocks(rest)
  {
    hide OpensBlock, ClosesBlock, NotClosedBetween, Block, AllBlank, Blank, RemoveBlocks;
    var s := open + (body + (close + (space + rest)));
    var end, after := |open| + |body|, |open| + |body| + |close|;
    Parts(open, body, close, space, rest);
    BodyInside(details, open, body + (close + (space + rest)), |body|);
    FirstOfSuffix(s, after + |space|);
    BlockByOffsets(details, s, |open|, end, after, after + |space|);
    BlockGoes(s, after + |space|);
  }

  lemma FirstOfSuffix(s: string, i: nat)
    requires i <= |s|
    ensures i < |s| ==> s[i..] != "" && s[i..][0] == s[i]
  {
  }

  lemma BlockGoes(s: string, n: nat)
    requires Block(s) == Some(n)
    ensures n <= |s| && RemoveBlocks(s) == RemoveBlocks(s[n..])
  {
    hide Block;
  }

  /** A block that is never closed runs to the end of the text. */
  lemma OpenBlockIsRemoved(details: bool, open: string, body: string)
    requires OpensBlock(details, open) && NotClosedBetween(details, body, 0, |body|)
    ensures RemoveBlocks(open + body) == ""
  {
    hide OpensBlock, ClosesBlock, NotClosedBetween, Block, Opens;
    var s := open + body;
    assert s[..|open|] == open;
    OpensIff(details, s, |open|);
    BodyInside(details, open, body, |body|);
    BodyRunsTo(details, s, |open|, |s|);
    BlockOpens(details, s, |open|);
    assert s[|s|..] == "";
  }

  /** Where no opening tag stands nothing is removed. */
  lemma OtherTextStays(s: string)
    requires s != "" && forall details, n | 0 <= n <= |s| :: !OpensBlock(details, s[..n])
    ensures RemoveBlocks(s) == [s[0]] + RemoveBlocks(s[1..])
  {
    hide OpenThink, OpenDetails, OpensThinking, OpensDetails;
    if OpenThink(s).Some? {
      assert !OpensBlock(false, s[..OpenThink(s).value]);
      OpenThinkIff(s, OpenThink(s).value);
    }
    if OpenDetails(s).Some? {
      assert !OpensBlock(true, s[..OpenDetails(s).value]);
      OpenDetailsIff(s, OpenDetails(s).value);
    }
  }
}
