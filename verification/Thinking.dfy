/** The thinking-block pattern of the transform, as an explicit left-to-right scanner.

    The pattern is matched case-insensitively; at every position at most one way of matching
    exists, so a deterministic scan finds what the regular expression finds. */
module Thinking {
  import opened Messages

  const THINK_START := "<think>\n"
  const THINK_END := "\n</think>\n\n"
  const DETAILS_START := "<details open>\n<summary>Thinking</summary>\n\n"
  const DETAILS_END := "\n</details>\n\n"

  function BlockStart(collapsible: bool): string {
    if collapsible then DETAILS_START else THINK_START
  }

  function BlockEnd(collapsible: bool): string {
    if collapsible then DETAILS_END else THINK_END
  }

  // ----- Character classes -----

  /** Simple case folding, restricted to the letters of the tags: the Kelvin sign folds to k and
      the long s folds to s. */
  function Fold(c: char): char {
    if 'A' <= c <= 'Z' then c - 'A' + 'a'
    else if c == '\U{212A}' then 'k'
    else if c == '\U{017F}' then 's'
    else c
  }

  /** The class \s: vertical tab is not a member. */
  predicate IsSpace(c: char) {
    c == ' ' || c == '\t' || c == '\n' || c == '\U{0C}' || c == '\r'
  }

  /** The class \w that \b looks at: ASCII only. */
  predicate IsWord(c: char) {
    'a' <= c <= 'z' || 'A' <= c <= 'Z' || '0' <= c <= '9' || c == '_'
  }

  predicate IsNewline(c: char) {
    c == '\r' || c == '\n'
  }

  // ----- Pattern pieces; positions are offsets into `s` -----

  /** The lower-case `tag` stands at position `i` of `s`, in any case. */
  predicate At(tag: string, s: string, i: nat) {
    i + |tag| <= |s| && forall k | 0 <= k < |tag| :: Fold(s[i + k]) == tag[k]
  }

  /** The assertion \b at position `i`. */
  predicate Boundary(s: string, i: nat)
    requires 0 < i <= |s|
  {
    IsWord(s[i - 1]) != (i < |s| && IsWord(s[i]))
  }

  /** The position after `[^>]*>`. */
  function AfterTag(s: string, i: nat): (r: Option<nat>)
    ensures r.Some? ==> i < r.value <= |s| && s[r.value - 1] == '>'
    decreases |s| - i
  {
    if i >= |s| then None
    else if s[i] == '>' then Some(i + 1)
    else AfterTag(s, i + 1)
  }

  /** The position after `\s*`. */
  function AfterSpace(s: string, i: nat): (r: nat)
    requires i <= |s|
    ensures i <= r <= |s|
    ensures forall k | i <= k < r :: IsSpace(s[k])
    ensures r < |s| ==> !IsSpace(s[r])
    decreases |s| - i
  {
    if i < |s| && IsSpace(s[i]) then AfterSpace(s, i + 1) else i
  }

  function OpenThink(s: string): (r: Option<nat>)
    ensures r.Some? ==> 0 < r.value <= |s|
  {
    if || (At("<think", s, 0) && Boundary(s, 6))
       || (At("<thinking", s, 0) && Boundary(s, 9))
    then AfterTag(s, 6)
    else None
  }

  function OpenDetails(s: string): (r: Option<nat>)
    ensures r.Some? ==> 0 < r.value <= |s|
  {
    if !(At("<details", s, 0) && Boundary(s, 8)) then None else
    var tag := AfterTag(s, 8);
    if tag.None? then None else
    var summary := AfterSpace(s, tag.value);
    if !(At("<summary", s, summary) && Boundary(s, summary + 8)) then None else
    var inner := AfterTag(s, summary + 8);
    if inner.None? then None else
    var title := AfterSpace(s, inner.value);
    if !At("thinking", s, title) then None else
    var close := AfterSpace(s, title + 8);
    if At("</summary>", s, close) then Some(close + 10) else None
  }

  /** The length of a closing tag of the given style at position `i`, or 0. */
  function ClosingTag(details: bool, s: string, i: nat): (n: nat)
    ensures n > 0 ==> i + n <= |s|
  {
    if details then (if At("</details>", s, i) then 10 else 0)
    else if At("</think>", s, i) then 8
    else if At("</thinking>", s, i) then 11
    else 0
  }

  /** The position after the lazy body and its closing tag, or the end of the text. */
  function AfterBody(details: bool, s: string, i: nat): (r: nat)
    requires i <= |s|
    ensures i <= r <= |s|
    decreases |s| - i
  {
    if i == |s| then i
    else if ClosingTag(details, s, i) > 0 then i + ClosingTag(details, s, i)
    else AfterBody(details, s, i + 1)
  }

  /** The length of a thinking block at the start of `s`, with its trailing white space. */
  function Block(s: string): (r: Option<nat>)
    ensures r.Some? ==> 0 < r.value <= |s|
  {
    if OpenThink(s).Some? then
      Some(AfterSpace(s, AfterBody(false, s, OpenThink(s).value)))
    else if OpenDetails(s).Some? then
      Some(AfterSpace(s, AfterBody(true, s, OpenDetails(s).value)))
    else
      None
  }

  function RemoveBlocks(s: string): string {
    if s == "" then ""
    else if Block(s).Some? then RemoveBlocks(s[Block(s).value..])
    else [s[0]] + RemoveBlocks(s[1..])
  }

  function TrimNewlines(s: string): string {
    if s != "" && IsNewline(s[0]) then TrimNewlines(s[1..]) else s
  }

  function TrimSpace(s: string): string {
    s[AfterSpace(s, 0)..]
  }

  function Strip(content: string): string {
    TrimNewlines(RemoveBlocks(content))
  }

  // ----- Printing then stripping -----

  ghost predicate NoClosingTag(details: bool, s: string) {
    forall i | 0 <= i < |s| :: ClosingTag(details, s, i) == 0
  }

  /** No thinking block starts anywhere in `s`. */
  ghost predicate NoBlock(s: string) {
    forall i | 0 <= i < |s| :: Block(s[i..]).None?
  }

  lemma {:induction false} RemoveBlocksKeepsPlainText(s: string)
    requires NoBlock(s)
    ensures RemoveBlocks(s) == s
  {
    if s != "" {
      assert s[0..] == s;
      assert forall i | 0 <= i < |s| - 1 :: s[1..][i..] == s[i + 1..];
      RemoveBlocksKeepsPlainText(s[1..]);
    }
  }

  /** Scanning from an offset is scanning the suffix. */
  lemma {:induction false} AfterSpaceShift(s: string, n: nat, i: nat)
    requires n + i <= |s|
    ensures AfterSpace(s, n + i) == n + AfterSpace(s[n..], i)
    decreases |s| - n - i
  {
    if n + i < |s| && IsSpace(s[n + i]) {
      AfterSpaceShift(s, n, i + 1);
    }
  }

  /** A tag cannot begin in text without it and reach over a newline. */
  lemma TagStopsAtNewline(tag: string, p: string, body: string, rest: string, i: nat)
    requires i < |body| && !At(tag, body, i)
    requires '\n' !in tag
    requires rest == "" || rest[0] == '\n'
    ensures !At(tag, p + body + rest, |p| + i)
  {
    var s := p + body + rest;
    if i + |tag| <= |body| {
      var k :| 0 <= k < |tag| && Fold(body[i + k]) != tag[k];
      assert s[|p| + i + k] == body[i + k];
    } else if rest != "" {
      var k := |body| - i;
      assert s[|p| + i + k] == '\n' && tag[k] in tag;
    }
  }

  /** Tag-free text stays tag-free before a newline or the end of the text. */
  lemma NoTagInBody(details: bool, p: string, body: string, rest: string)
    requires NoClosingTag(details, body)
    requires rest == "" || rest[0] == '\n'
    ensures forall i | |p| <= i < |p| + |body| :: ClosingTag(details, p + body + rest, i) == 0
  {
    forall i | |p| <= i < |p| + |body|
      ensures ClosingTag(details, p + body + rest, i) == 0
    {
      assert ClosingTag(details, body, i - |p|) == 0;
      if details {
        TagStopsAtNewline("</details>", p, body, rest, i - |p|);
      } else {
        TagStopsAtNewline("</think>", p, body, rest, i - |p|);
        TagStopsAtNewline("</thinking>", p, body, rest, i - |p|);
      }
    }
  }

  /** The lazy body runs over tag-free text. */
  lemma {:induction false} AfterBodySkips(details: bool, s: string, i: nat, j: nat)
    requires i <= j <= |s|
    requires forall k | i <= k < j :: ClosingTag(details, s, k) == 0
    ensures AfterBody(details, s, i) == AfterBody(details, s, j)
    decreases j - i
  {
    if i < j {
      AfterBodySkips(details, s, i + 1, j);
    }
  }

  lemma NoTagAt(tag: string, s: string, i: nat)
    requires i < |s| && Fold(s[i]) != '<'
    requires tag != "" && tag[0] == '<'
    ensures !At(tag, s, i)
  {
    assert Fold(s[i + 0]) != tag[0];
  }

  /** The body that has reached a newline followed by the closing tag ends after the tag. */
  lemma AfterBodyAtTag(details: bool, s: string, i: nat)
    requires i < |s| && s[i] == '\n'
    requires At(if details then "</details>" else "</think>", s, i + 1)
    ensures AfterBody(details, s, i) == i + (if details then 11 else 9)
  {
    NoTagAt("</think>", s, i);
    NoTagAt("</thinking>", s, i);
    NoTagAt("</details>", s, i);
  }

  lemma EndMarkerTag(collapsible: bool, p: string, rest: string)
    ensures var s := p + BlockEnd(collapsible) + rest;
      s[|p|] == '\n' && At(if collapsible then "</details>" else "</think>", s, |p| + 1)
  {
    if collapsible {
      assert p + DETAILS_END + rest == p + "\n" + "</details>" + ("\n\n" + rest);
      AtSelf("</details>", p + "\n", "\n\n" + rest);
    } else {
      assert p + THINK_END + rest == p + "\n" + "</think>" + ("\n\n" + rest);
      AtSelf("</think>", p + "\n", "\n\n" + rest);
    }
  }

  lemma AtSelf(tag: string, p: string, rest: string)
    requires forall k | 0 <= k < |tag| :: Fold(tag[k]) == tag[k]
    ensures At(tag, p + tag + rest, |p|)
  {
  }

  lemma OpenThinkMarker(rest: string)
    ensures OpenThink(THINK_START + rest) == Some(7)
  {
    var s := THINK_START + rest;
    assert s[..8] == THINK_START;
    assert s[0] == '<' && s[1] == 't' && s[2] == 'h' && s[3] == 'i' && s[4] == 'n' && s[5] == 'k' && s[6] == '>';
  }

  lemma {:induction false} AfterTagFinds(s: string, i: nat, j: nat)
    requires i <= j < |s| && s[j] == '>'
    requires forall k | i <= k < j :: s[k] != '>'
    ensures AfterTag(s, i) == Some(j + 1)
    decreases j - i
  {
    if i < j {
      AfterTagFinds(s, i + 1, j);
    }
  }

  // The characters of the collapsible start marker that the pattern looks at, tag by tag.

  lemma MarkerDetails(rest: string)
    ensures At("<details", DETAILS_START + rest, 0)
  {
  }

  lemma MarkerOpen(rest: string)
    ensures var s := DETAILS_START + rest;
      && s[1] == 'd' && s[7] == 's' && s[8] == ' ' && s[9] == 'o' && s[10] == 'p' && s[11] == 'e' && s[12] == 'n'
      && s[13] == '>' && s[14] == '\n' && s[15] == '<' && s[22] == 'y' && s[23] == '>'
  {
  }

  lemma MarkerSummary(rest: string)
    ensures At("<summary", DETAILS_START + rest, 15)
  {
  }

  lemma MarkerTitle(rest: string)
    ensures At("thinking", DETAILS_START + rest, 24)
  {
  }

  lemma MarkerClose(rest: string)
    ensures At("</summary>", DETAILS_START + rest, 32)
  {
  }

  lemma MarkerGaps(rest: string)
    ensures var s := DETAILS_START + rest;
      && s[24] == 'T' && s[32] == '<' && s[42] == '\n' && s[43] == '\n'
  {
  }

  lemma OpenDetailsMarker(rest: string)
    ensures var s := DETAILS_START + rest;
      OpenThink(s).None? && OpenDetails(s) == Some(42) && s[42] == '\n' && s[43] == '\n'
  {
    MarkerDetails(rest);
    MarkerOpen(rest);
    MarkerSummary(rest);
    MarkerTitle(rest);
    MarkerClose(rest);
    MarkerGaps(rest);
    OpenDetailsAt(DETAILS_START + rest);
  }

  lemma OpenDetailsAt(s: string)
    requires |s| >= 44
    requires At("<details", s, 0) && At("<summary", s, 15) && At("thinking", s, 24) && At("</summary>", s, 32)
    requires s[1] == 'd' && s[7] == 's' && s[8] == ' ' && s[9] == 'o' && s[10] == 'p' && s[11] == 'e' && s[12] == 'n'
    requires s[13] == '>' && s[14] == '\n' && s[15] == '<' && s[22] == 'y' && s[23] == '>'
    requires s[24] == 'T' && s[32] == '<'
    ensures OpenThink(s).None? && OpenDetails(s) == Some(42)
  {
    assert Fold(s[0 + 1]) == 'd' && "<think"[1] == "<thinking"[1] == 't';
    AfterTagFinds(s, 8, 13);
    AfterTagFinds(s, 23, 23);
    assert AfterSpace(s, 14) == 15;
  }

  /** The opening tag of the start marker, and no closing tag in the rest of the marker. */
  lemma StartMarkerTag(collapsible: bool, rest: string)
    ensures var s := BlockStart(collapsible) + rest; var open := OpeningLength(collapsible);
      && (if collapsible then OpenThink(s).None? && OpenDetails(s) == Some(open) else OpenThink(s) == Some(open))
      && (forall i | open <= i < |BlockStart(collapsible)| :: ClosingTag(collapsible, s, i) == 0)
  {
    hide OpenThink, OpenDetails, ClosingTag;
    if collapsible {
      DetailsStartTag(rest);
    } else {
      ThinkStartTag(rest);
    }
  }

  lemma DetailsStartTag(rest: string)
    ensures var s := DETAILS_START + rest;
      && OpenThink(s).None? && OpenDetails(s) == Some(42)
      && ClosingTag(true, s, 42) == ClosingTag(true, s, 43) == 0
  {
    hide OpenThink, OpenDetails;
    OpenDetailsMarker(rest);
    NoTagAt("</details>", DETAILS_START + rest, 42);
    NoTagAt("</details>", DETAILS_START + rest, 43);
  }

  lemma ThinkStartTag(rest: string)
    ensures var s := THINK_START + rest;
      OpenThink(s) == Some(7) && ClosingTag(false, s, 7) == 0
  {
    OpenThinkMarker(rest);
    NoTagAt("</think>", THINK_START + rest, 7);
    NoTagAt("</thinking>", THINK_START + rest, 7);
  }

  function OpeningLength(collapsible: bool): (n: nat)
    ensures n <= |BlockStart(collapsible)|
  {
    if collapsible then 42 else 7
  }

  ghost predicate Opens(details: bool, s: string, open: nat) {
    if details then OpenThink(s).None? && OpenDetails(s) == Some(open) else OpenThink(s) == Some(open)
  }

  lemma BlockOpens(details: bool, s: string, open: nat)
    requires open <= |s| && Opens(details, s, open)
    ensures Block(s) == Some(AfterSpace(s, AfterBody(details, s, open)))
  {
  }

  function EndLength(details: bool): nat {
    if details then 13 else 11
  }

  lemma BodyEnds(details: bool, s: string, open: nat, end: nat)
    requires open <= end && end + EndLength(details) <= |s|
    requires forall i | open <= i < end :: ClosingTag(details, s, i) == 0
    requires s[end] == '\n' && At(if details then "</details>" else "</think>", s, end + 1)
    ensures AfterBody(details, s, open) == end + EndLength(details) - 2
  {
    AfterBodySkips(details, s, open, end);
    AfterBodyAtTag(details, s, end);
  }

  lemma SpaceAfterMarker(s: string, after: nat)
    requires 2 <= after <= |s|
    requires s[after - 2] == '\n' && s[after - 1] == '\n'
    ensures AfterSpace(s, after - 2) == after + AfterSpace(s[after..], 0)
  {
    assert AfterSpace(s, after - 2) == AfterSpace(s, after - 1) == AfterSpace(s, after + 0);
    AfterSpaceShift(s, after, 0);
  }

  lemma PrintedOpens(collapsible: bool, body: string)
    ensures Opens(collapsible, BlockStart(collapsible) + body, OpeningLength(collapsible))
  {
    StartMarkerTag(collapsible, body);
  }

  lemma PrintedBodyHasNoTag(collapsible: bool, reasoning: string, tail: string)
    requires NoClosingTag(collapsible, reasoning)
    requires tail == "" || tail[0] == '\n'
    ensures forall i | OpeningLength(collapsible) <= i < |BlockStart(collapsible)| + |reasoning| ::
      ClosingTag(collapsible, BlockStart(collapsible) + reasoning + tail, i) == 0
  {
    hide BlockStart, ClosingTag, NoClosingTag;
    var start := BlockStart(collapsible);
    assert start + reasoning + tail == start + (reasoning + tail);
    StartMarkerTag(collapsible, reasoning + tail);
    NoTagInBody(collapsible, start, reasoning, tail);
  }

  lemma PrintedTags(collapsible: bool, reasoning: string, rest: string, s: string, end: nat)
    requires NoClosingTag(collapsible, reasoning)
    requires s == BlockStart(collapsible) + reasoning + BlockEnd(collapsible) + rest
    requires end == |BlockStart(collapsible)| + |reasoning|
    ensures forall i | OpeningLength(collapsible) <= i < end :: ClosingTag(collapsible, s, i) == 0
    ensures end + EndLength(collapsible) <= |s| && s[end] == '\n'
    ensures At(if collapsible then "</details>" else "</think>", s, end + 1)
  {
    hide BlockStart, BlockEnd, ClosingTag, At, NoClosingTag;
    EndMarkerTag(collapsible, BlockStart(collapsible) + reasoning, rest);
    EndMarkerLength(collapsible);
    var tail := BlockEnd(collapsible) + rest;
    assert s == BlockStart(collapsible) + reasoning + tail;
    PrintedBodyHasNoTag(collapsible, reasoning, tail);
  }

  lemma EndMarkerLength(collapsible: bool)
    ensures |BlockEnd(collapsible)| == EndLength(collapsible) && BlockEnd(collapsible)[0] == '\n'
  {
  }

  /** The body of a printed block ends with its closing tag, two newlines before the end marker's end. */
  lemma BodyOfPrinted(collapsible: bool, start: string, reasoning: string, end: string, rest: string)
    requires start == BlockStart(collapsible) && end == BlockEnd(collapsible)
    requires NoClosingTag(collapsible, reasoning)
    ensures AfterBody(collapsible, start + reasoning + end + rest, OpeningLength(collapsible))
         == |start + reasoning + end| - 2
  {
    hide BlockStart, BlockEnd, ClosingTag, At, NoClosingTag, AfterBody;
    var s, to := start + reasoning + end + rest, |start| + |reasoning|;
    EndMarkerLength(collapsible);
    PrintedTags(collapsible, reasoning, rest, s, to);
    BodyEnds(collapsible, s, OpeningLength(collapsible), to);
  }

  /** A printed block is matched up to the first character after it that is not white space. */
  lemma BlockOfPrinted(collapsible: bool, start: string, reasoning: string, end: string, rest: string)
    requires start == BlockStart(collapsible) && end == BlockEnd(collapsible)
    requires NoClosingTag(collapsible, reasoning)
    ensures Block(start + reasoning + end + rest) == Some(|start + reasoning + end| + AfterSpace(rest, 0))
  {
    hide OpenThink, OpenDetails, ClosingTag, BlockStart, BlockEnd, Block, Opens, AfterBody, AfterSpace, NoClosingTag;
    var s := start + reasoning + end + rest;
    assert s == start + (reasoning + end + rest);
    PrintedOpens(collapsible, reasoning + end + rest);
    BlockOpens(collapsible, s, OpeningLength(collapsible));
    BodyOfPrinted(collapsible, start, reasoning, end, rest);
    EndMarkerNewlines(collapsible, start + reasoning, rest);
    var printed := start + reasoning + end;
    assert s == printed + rest && s[|printed|..] == rest;
    SpaceAfterMarker(s, |printed|);
  }

  lemma EndMarkerNewlines(collapsible: bool, head: string, rest: string)
    ensures var s := head + BlockEnd(collapsible) + rest; var n := |head| + |BlockEnd(collapsible)|;
      s[n - 2] == '\n' && s[n - 1] == '\n'
  {
  }

  /** What stripping leaves of a printed block followed by anything: the stripped rest. */
  lemma StripPrintedBlock(collapsible: bool, reasoning: string, rest: string)
    requires NoClosingTag(collapsible, reasoning)
    ensures Strip(BlockStart(collapsible) + reasoning + BlockEnd(collapsible) + rest) == Strip(TrimSpace(rest))
  {
    hide Block, BlockStart, BlockEnd;
    var printed := BlockStart(collapsible) + reasoning + BlockEnd(collapsible);
    BlockOfPrinted(collapsible, BlockStart(collapsible), reasoning, BlockEnd(collapsible), rest);
    assert (printed + rest)[|printed| + AfterSpace(rest, 0)..] == TrimSpace(rest);
  }

  /** The print/strip round trip: content without a block of its own comes back, up to the white
      space that followed the printed block. */
  lemma PrintStripRoundTrip(collapsible: bool, reasoning: string, content: string)
    requires NoClosingTag(collapsible, reasoning)
    requires NoBlock(content)
    ensures Strip(BlockStart(collapsible) + reasoning + BlockEnd(collapsible) + content) == TrimSpace(content)
  {
    hide OpenThink, OpenDetails, ClosingTag, BlockStart, BlockEnd;
    StripPrintedBlock(collapsible, reasoning, content);
    var from := AfterSpace(content, 0);
    assert forall i | 0 <= i < |content| - from :: content[from..][i..] == content[from + i..];
    RemoveBlocksKeepsPlainText(TrimSpace(content));
  }

  lemma NoBlockWithoutBracket(s: string)
    requires s != "" && s[0] != '<'
    ensures Block(s).None?
  {
    NoTagAt("<think", s, 0);
    NoTagAt("<thinking", s, 0);
    NoTagAt("<details", s, 0);
  }

  /** Text before the first '<' is out of the scanner's reach. */
  lemma {:induction false} RemoveBlocksKeepsPrefix(p: string, s: string)
    requires '<' !in p
    ensures RemoveBlocks(p + s) == p + RemoveBlocks(s)
  {
    hide Block;
    if p == "" {
      assert p + s == s;
    } else {
      assert p[0] in p && (p + s)[0] == p[0];
      NoBlockWithoutBracket(p + s);
      assert (p + s)[1..] == p[1..] + s;
      RemoveBlocksKeepsPrefix(p[1..], s);
      assert p == [p[0]] + p[1..];
      Reassociate([p[0]], p[1..], RemoveBlocks(s));
    }
  }

  lemma StripKeepsPrefix(p: string, s: string)
    requires '<' !in p
    requires p != "" && !IsNewline(p[0])
    ensures Strip(p + s) == p + RemoveBlocks(s)
  {
    RemoveBlocksKeepsPrefix(p, s);
  }

  // ----- Stripping is not idempotent -----

  /** A printed block inside a broken opening tag, in front of `rest`. */
  function Nested(rest: string): string {
    "<thi" + (THINK_START + "x" + THINK_END + ("nk>\nz\n" + ("</think>\n\n" + rest)))
  }

  lemma NoBlockAt(s: string)
    requires |s| > 4 && s[0] == '<'
    requires s[1] == '/' || (s[1] == 't' && s[4] == '<')
    ensures Block(s).None?
  {
    NotAt("<details", s, 0, 1);
    if s[1] == '/' {
      NotAt("<think", s, 0, 1);
      NotAt("<thinking", s, 0, 1);
    } else {
      NotAt("<think", s, 0, 4);
      NotAt("<thinking", s, 0, 4);
    }
  }

  lemma NotAt(tag: string, s: string, i: nat, k: nat)
    requires k < |tag| && i + k < |s| && Fold(s[i + k]) != tag[k]
    ensures !At(tag, s, i)
  {
  }

  lemma KeepsFirst(s: string, first: string, rest: string)
    requires s == first + rest && |first| == 1 && Block(s).None?
    ensures RemoveBlocks(s) == first + RemoveBlocks(rest)
  {
    hide Block;
    assert s[1..] == rest && [s[0]] == first;
  }

  lemma ClosingTagStays(rest: string)
    requires '<' !in rest
    ensures RemoveBlocks("</think>\n\n" + rest) == "</think>\n\n" + rest
  {
    hide Block;
    var s, tail := "</think>\n\n" + rest, "/think>\n\n" + rest;
    assert s == "<" + tail;
    NoBlockAt(s);
    KeepsFirst(s, "<", tail);
    RemoveBlocksKeepsPrefix(tail, "");
    assert tail + "" == tail;
  }

  lemma InnerBlockIsRemoved(rest: string)
    requires '<' !in rest
    ensures var tail := "nk>\nz\n" + ("</think>\n\n" + rest);
      RemoveBlocks(THINK_START + "x" + THINK_END + tail) == tail
  {
    hide Block;
    var closing := "</think>\n\n" + rest;
    var tail := "nk>\nz\n" + closing;
    var printed := THINK_START + "x" + THINK_END;
    assert NoClosingTag(false, "x") by { NoTagAt("</think>", "x", 0); NoTagAt("</thinking>", "x", 0); }
    BlockOfPrinted(false, THINK_START, "x", THINK_END, tail);
    assert AfterSpace(tail, 0) == 0;
    assert (printed + tail)[|printed|..] == tail;
    ClosingTagStays(rest);
    RemoveBlocksKeepsPrefix("nk>\nz\n", closing);
  }

  /** Removing the inner block makes a new opening tag, so a second strip removes more. What is first
      hidden and then uncovered can be any text without tags, a recovery notice included. */
  lemma StripIsNotIdempotent(rest: string)
    requires '<' !in rest && rest != "" && !IsSpace(rest[0])
    ensures Strip(Nested(rest)) == THINK_START + "z" + THINK_END + rest
    ensures Strip(Strip(Nested(rest))) == rest
  {
    hide Block;
    var tail := "nk>\nz\n" + ("</think>\n\n" + rest);
    var p := THINK_START + "x" + THINK_END + tail;
    InnerBlockIsRemoved(rest);
    NoBlockAt(Nested(rest));
    NestedSplits(rest, p);
    KeepsFirst(Nested(rest), "<", "thi" + p);
    RemoveBlocksKeepsPrefix("thi", p);
    NestedJoins(rest);
    assert NoClosingTag(false, "z") by { NoTagAt("</think>", "z", 0); NoTagAt("</thinking>", "z", 0); }
    StripPrintedBlock(false, "z", rest);
    RemoveBlocksKeepsPrefix(rest, "");
    assert rest + "" == rest;
  }

  lemma NestedSplits(rest: string, p: string)
    requires p == THINK_START + "x" + THINK_END + ("nk>\nz\n" + ("</think>\n\n" + rest))
    ensures Nested(rest) == "<" + ("thi" + p)
  {
  }

  lemma NestedJoins(rest: string)
    ensures "<" + ("thi" + ("nk>\nz\n" + ("</think>\n\n" + rest))) == THINK_START + "z" + THINK_END + rest
  {
  }

  /** A printed block that is never closed runs to the end of the text. */
  lemma UnclosedBlockIsWhole(collapsible: bool, reasoning: string)
    requires NoClosingTag(collapsible, reasoning)
    ensures RemoveBlocks(BlockStart(collapsible) + reasoning) == ""
  {
    hide BlockStart;
    var s := BlockStart(collapsible) + reasoning;
    assert s == s + "";
    PrintedOpens(collapsible, reasoning);
    PrintedBodyHasNoTag(collapsible, reasoning, "");
    BlockOpens(collapsible, s, OpeningLength(collapsible));
    AfterBodySkips(collapsible, s, OpeningLength(collapsible), |s|);
    assert Block(s) == Some(|s|) && s[|s|..] == "";
  }

  /** An unclosed block at the end of a text is removed entirely, and the text in front of it stays. */
  lemma UnclosedBlockIsRemoved(collapsible: bool, p: string, reasoning: string)
    requires NoClosingTag(collapsible, reasoning) && '<' !in p
    ensures Strip(p + (BlockStart(collapsible) + reasoning)) == TrimNewlines(p)
  {
    hide BlockStart, RemoveBlocks;
    UnclosedBlockIsWhole(collapsible, reasoning);
    RemoveBlocksKeepsPrefix(p, BlockStart(collapsible) + reasoning);
    assert p + "" == p;
  }

  /** Removing blocks never lengthens a text, and shortens one that has a block. */
  lemma {:induction false} RemoveBlocksShortens(s: string)
    ensures |RemoveBlocks(s)| <= |s|
    ensures !NoBlock(s) ==> |RemoveBlocks(s)| < |s|
  {
    hide Block;
    if s != "" {
      if Block(s).Some? {
        RemoveBlocksShortens(s[Block(s).value..]);
      } else {
        RemoveBlocksShortens(s[1..]);
        if i :| 0 <= i < |s| && Block(s[i..]).Some? {
          assert s[0..] == s;
          assert s[1..][i - 1..] == s[i..];
        }
      }
    }
  }

  lemma {:induction false} TrimmedStays(s: string)
    ensures TrimNewlines(TrimNewlines(s)) == TrimNewlines(s)
    ensures |TrimNewlines(s)| <= |s|
  {
    if s != "" && IsNewline(s[0]) {
      TrimmedStays(s[1..]);
    }
  }

  /** Exactly when a second strip changes nothing: when the first leaves no block behind. */
  lemma StripIsIdempotentIff(content: string)
    ensures Strip(Strip(content)) == Strip(content) <==> NoBlock(Strip(content))
  {
    hide Block, NoBlock;
    var once := Strip(content);
    TrimmedStays(RemoveBlocks(content));
    TrimmedStays(RemoveBlocks(once));
    RemoveBlocksShortens(once);
    if NoBlock(once) {
      RemoveBlocksKeepsPlainText(once);
    }
  }

  // ----- A condition on the raw content -----

  /** Once the scanner has kept a '<', no block follows it. */
  ghost predicate NoBlockAfterKept(s: string)
    decreases |s|
  {
    if s == "" then true
    else if Block(s).Some? then NoBlockAfterKept(s[Block(s).value..])
    else if s[0] == '<' then NoBlock(s[1..])
    else NoBlockAfterKept(s[1..])
  }

  lemma NoBlockCons(c: char, s: string)
    requires NoBlock(s) && Block([c] + s).None?
    ensures NoBlock([c] + s)
  {
    hide Block;
    forall i | 0 <= i < |s| + 1
      ensures Block(([c] + s)[i..]).None?
    {
      assert i > 0 ==> ([c] + s)[i..] == s[i - 1..];
    }
  }

  lemma NoBlockTail(s: string, n: nat)
    requires NoBlock(s) && n <= |s|
    ensures NoBlock(s[n..])
  {
    hide Block;
    assert forall i | 0 <= i < |s| - n :: s[n..][i..] == s[n + i..];
  }

  lemma {:induction false} NothingLeftToRemove(s: string)
    requires NoBlockAfterKept(s)
    ensures NoBlock(RemoveBlocks(s))
    decreases |s|
  {
    hide Block, NoBlock;
    if s == "" {
      NothingHasNoBlock();
    } else if Block(s).Some? {
      NothingLeftToRemove(s[Block(s).value..]);
    } else if s[0] == '<' {
      RemoveBlocksKeepsPlainText(s[1..]);
      assert [s[0]] + s[1..] == s;
      NoBlockCons(s[0], s[1..]);
    } else {
      NothingLeftToRemove(s[1..]);
      NoBlockWithoutBracket([s[0]] + RemoveBlocks(s[1..]));
      NoBlockCons(s[0], RemoveBlocks(s[1..]));
    }
  }

  lemma NothingHasNoBlock()
    ensures NoBlock("")
  {
  }

  lemma {:induction false} TrimmedHasNoBlock(s: string)
    requires NoBlock(s)
    ensures NoBlock(TrimNewlines(s))
  {
    hide NoBlock;
    if s != "" && IsNewline(s[0]) {
      NoBlockTail(s, 1);
      TrimmedHasNoBlock(s[1..]);
    }
  }

  /** What a caller can check on the raw content: if no block follows a kept '<', one strip is enough. */
  lemma StripIsIdempotentOn(content: string)
    requires NoBlockAfterKept(content)
    ensures Strip(Strip(content)) == Strip(content)
  {
    hide Block, NoBlock, NoBlockAfterKept;
    NothingLeftToRemove(content);
    TrimmedHasNoBlock(RemoveBlocks(content));
    StripIsIdempotentIff(content);
  }

  lemma TrimmedStart(s: string)
    ensures TrimSpace(s) == s <==> s == "" || !IsSpace(s[0])
  {
    assert |TrimSpace(s)| == |s| - AfterSpace(s, 0);
    if s == "" || !IsSpace(s[0]) {
      assert s[0..] == s;
    } else {
      assert AfterSpace(s, 0) >= 1;
    }
  }

  /** Content without a block and without white space in front is a fixed point of the strip. */
  lemma CleanContentIsSteady(content: string)
    requires NoBlock(content) && TrimSpace(content) == content
    ensures Strip(content) == content
  {
    hide NoBlock, RemoveBlocks, TrimSpace;
    RemoveBlocksKeepsPlainText(content);
    TrimmedStart(content);
  }
}
