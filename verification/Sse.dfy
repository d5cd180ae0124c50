/** One step of the streaming relay, and the relay loop. */
module Sse {
  import opened Messages
  import opened ReasoningStore
  import opened Prepare
  import opened Accumulator
  import opened Display
  import opened StreamRecording
  import opened StreamRuns
  import opened AccumulatorFold
  import Chunks
  import Keys

  // ----- Lines and frames -----

  /** What the relay is configured with: the JSON decoder, the block style if reasoning is displayed,
      the recording contexts with their namespace, and the model name the client asked for. */
  datatype Setup = Setup(
    decode: string -> Option<Chunks.Chunk>,
    display: Option<bool>,
    contexts: seq<RecordingContext>,
    namespace: Keys.Namespace,
    model: string)

  datatype Line = PassedOn | DoneLine | Data(chunk: Chunks.Chunk)

  /** The white space of Unicode. */
  predicate IsWhite(c: char) {
    || '\t' <= c <= '\r' || c == ' ' || c == '\U{85}' || c == '\U{A0}' || c == '\U{1680}'
    || '\U{2000}' <= c <= '\U{200A}' || c == '\U{2028}' || c == '\U{2029}' || c == '\U{202F}'
    || c == '\U{205F}' || c == '\U{3000}'
  }

  function TrimLeft(s: string): string {
    if s != "" && IsWhite(s[0]) then TrimLeft(s[1..]) else s
  }

  function TrimRight(s: string): string {
    if s != "" && IsWhite(s[|s| - 1]) then TrimRight(s[..|s| - 1]) else s
  }

  function Trim(s: string): string {
    TrimRight(TrimLeft(s))
  }

  function Classify(decode: string -> Option<Chunks.Chunk>, line: string): Line {
    var trimmed := Trim(line);
    if !IsPrefix("data:", trimmed) then PassedOn else
    var data := Trim(trimmed[5..]);
    if data == "[DONE]" then DoneLine else
    var chunk := decode(data);
    if chunk.None? then PassedOn else Data(chunk.value)
  }

  predicate AllWhite(s: string) {
    forall i | 0 <= i < |s| :: IsWhite(s[i])
  }

  lemma {:induction false} TrimLeftDrops(before: string, s: string)
    requires AllWhite(before) && s != "" && !IsWhite(s[0])
    ensures TrimLeft(before + s) == s
  {
    if before == "" {
      assert before + s == s;
    } else {
      assert (before + s)[1..] == before[1..] + s;
      TrimLeftDrops(before[1..], s);
    }
  }

  lemma {:induction false} TrimRightDrops(s: string, after: string)
    requires AllWhite(after) && s != "" && !IsWhite(s[|s| - 1])
    ensures TrimRight(s + after) == s
  {
    if after == "" {
      assert s + after == s;
    } else {
      assert (s + after)[..|s + after| - 1] == s + after[..|after| - 1];
      TrimRightDrops(s, after[..|after| - 1]);
    }
  }

  /** What counts in a line is the text of its `data:` field, whatever white space, line ends included,
      stands around it. */
  lemma FieldIsFound(decode: string -> Option<Chunks.Chunk>, lead: string, before: string, data: string, after: string)
    requires AllWhite(lead) && AllWhite(before) && AllWhite(after)
    requires data != "" && !IsWhite(data[0]) && !IsWhite(data[|data| - 1])
    ensures Classify(decode, lead + ("data:" + (before + data) + after))
         == if data == "[DONE]" then DoneLine else if decode(data).None? then PassedOn else Data(decode(data).value)
  {
    hide TrimLeft, TrimRight, AllWhite;
    var field, rest := "data:" + (before + data), before + data;
    assert field[|field| - 1] == data[|data| - 1];
    assert (field + after)[0] == 'd';
    TrimLeftDrops(lead, field + after);
    TrimRightDrops(field, after);
    assert field[..5] == "data:" && field[5..] == rest;
    TrimLeftDrops(before, data);
    NothingWhite();
    TrimRightDrops(data, "");
    assert data + "" == data;
  }

  lemma NothingWhite()
    ensures AllWhite("")
  {
  }

  /** What is written to the client. */
  datatype Frame = Verbatim(line: string) | ChunkFrame(chunk: Chunks.Chunk, ending: string) | DoneFrame

  function LineEnding(line: string): string {
    if |line| >= 2 && line[|line| - 2..] == "\r\n" then "\r\n" else "\n"
  }

  // ----- Injecting the recovery notice -----

  /** A delta can carry the notice if it has a content field, even null, or tool calls. */
  predicate Carries(entry: Chunks.Choice) {
    entry.delta.Some? && (!entry.delta.value.content.Absent? || entry.delta.value.toolCalls.Some?)
  }

  function WithNotice(notice: string, entry: Chunks.Choice): Chunks.Choice
    requires Carries(entry)
  {
    entry.(delta := Some(entry.delta.value.(content := Given(notice + ContentOf(entry)))))
  }

  /** The first entry that can carry the notice, or -1. */
  function FirstCarrier(entries: seq<Chunks.Choice>): (k: int)
    ensures -1 <= k < |entries|
    ensures k >= 0 ==> Carries(entries[k])
    ensures forall i | 0 <= i < if k >= 0 then k else |entries| :: !Carries(entries[i])
  {
    if entries == [] then -1 else
    var n := |entries| - 1;
    var k := FirstCarrier(entries[..n]);
    if k >= 0 then k else if Carries(entries[n]) then n else -1
  }

  /** An empty notice is none at all. */
  function Noticed(notice: string, entries: seq<Chunks.Choice>): (r: seq<Chunks.Choice>)
    ensures |r| == |entries|
  {
    var k := FirstCarrier(entries);
    if notice == "" || k == -1 then entries else entries[k := WithNotice(notice, entries[k])]
  }

  function Pending(notice: string, entries: seq<Chunks.Choice>): string {
    if FirstCarrier(entries) == -1 then notice else ""
  }

  method InjectRecoveryNotice(choices: array<Chunks.Choice>, notice: string) returns (injected: bool)
    modifies choices
    ensures injected <==> FirstCarrier(old(choices[..])) != -1
    ensures notice != "" ==> choices[..] == Noticed(notice, old(choices[..]))
  {
    ghost var original := choices[..];
    for i := 0 to choices.Length
      invariant choices[..] == original && FirstCarrier(original[..i]) == -1
    {
      assert original[..i + 1][..i] == original[..i];
      if choices[i].delta.Some? {
        var delta := choices[i].delta.value;
        if !delta.content.Absent? || delta.toolCalls.Some? {
          var existing := if delta.content.Given? then delta.content.text else "";
          FirstCarrierIsUnique(original, i);
          choices[i] := choices[i].(delta := Some(delta.(content := Given(notice + existing))));
          return true;
        }
      }
    }
    assert original[..choices.Length] == original;
    return false;
  }

  lemma FirstCarrierIsUnique(entries: seq<Chunks.Choice>, k: nat)
    requires k < |entries| && Carries(entries[k]) && forall i | 0 <= i < k :: !Carries(entries[i])
    ensures FirstCarrier(entries) == k
  {
  }

  // ----- One line -----

  /** What one line does: the chunk fed to the accumulator, if any, the notice that is still pending,
      the blocks left open, the frames written, and whether the stream is finished. */
  datatype Effect = Effect(
    fed: seq<Chunks.Chunk>,
    notice: string,
    open: set<int>,
    frames: seq<Frame>,
    finished: bool)

  function NoticeEntry(notice: string): Chunks.Choice {
    Chunks.Choice(Some(0), None, Some(Chunks.EMPTY_DELTA.(content := Given(notice))))
  }

  function Shown(display: Option<bool>, open: set<int>, entries: seq<Chunks.Choice>): Rewriting {
    if display.None? then Rewriting(entries, open) else RewriteAll(display.value, open, entries)
  }

  function OwnFrame(entries: seq<Chunks.Choice>, model: string): Frame {
    ChunkFrame(Chunks.Chunk(entries, Some(model)), "\n")
  }

  ghost function FlushFrames(setup: Setup, open: set<int>): seq<Frame> {
    if setup.display.None? || open == {} then [] else [OwnFrame(FlushEntries(setup.display.value, open), setup.model)]
  }

  function NoticeFrames(setup: Setup, notice: string): seq<Frame> {
    if notice == "" then [] else [OwnFrame([NoticeEntry(notice)], setup.model)]
  }

  function DataEffect(setup: Setup, notice: string, open: set<int>, chunk: Chunks.Chunk, ending: string): Effect {
    var entries := Noticed(notice, chunk.choices);
    var shown := Shown(setup.display, open, entries);
    var model := if chunk.model.Some? then Some(setup.model) else None;
    Effect([chunk.(choices := entries)], Pending(notice, chunk.choices), shown.open,
           [ChunkFrame(Chunks.Chunk(shown.entries, model), ending)], false)
  }

  ghost function LineEffect(setup: Setup, notice: string, open: set<int>, line: string): Effect {
    match Classify(setup.decode, line)
    case PassedOn => Effect([], notice, open, [Verbatim(line)], false)
    case DoneLine =>
      Effect([], "", if setup.display.None? then open else {},
             FlushFrames(setup, open) + NoticeFrames(setup, notice) + [DoneFrame], true)
    case Data(chunk) => DataEffect(setup, notice, open, chunk, LineEnding(line))
  }

  // ----- Recording while relaying -----

  method StoreUnderContexts(accumulator: StreamAccumulator, store: Store, atEnd: bool, setup: Setup)
    returns (ghost orders: seq<seq<int>>)
    modifies accumulator`stages, store
    ensures |orders| == |setup.contexts| && AllEnumerate(orders, accumulator.partials.Keys)
    ensures var batch := OrderedRounds(accumulator.partials, old(accumulator.stages), orders, atEnd, setup.contexts,
                                       setup.namespace);
      && accumulator.stages == batch.stages
      && store.State() == ApplyAll(store.env, old(store.State()), batch.ops)
  {
    hide StorePass, ApplyAll, Enumerates;
    orders := [];
    ghost var start, partials := store.State(), accumulator.partials;
    RoundsBegin(store.env, start, partials, accumulator.stages, atEnd, setup.namespace);
    for i := 0 to |setup.contexts|
      invariant |orders| == i && AllEnumerate(orders, partials.Keys)
      invariant var batch := OrderedRounds(partials, old(accumulator.stages), orders, atEnd, setup.contexts[..i],
                                           setup.namespace);
        && accumulator.stages == batch.stages
        && store.State() == ApplyAll(store.env, start, batch.ops)
    {
      var context := setup.contexts[i];
      var stored;
      ghost var order;
      stored, order := accumulator.StoreReasoning(store, atEnd, context, setup.namespace);
      assert setup.contexts[..i + 1] == setup.contexts[..i] + [context];
      RoundsExtend(store.env, start, partials, old(accumulator.stages), orders, order, atEnd, setup.contexts[..i],
                   context, setup.namespace);
      orders := orders + [order];
    }
    assert setup.contexts[..|setup.contexts|] == setup.contexts;
  }

  // ----- The step -----

  /** What a line makes the accumulator store: nothing for a line that is passed on, the ready choices
      after a chunk, and everything at the end. */
  function LineRounds(setup: Setup, line: string, partials: Partials, stages: Stages, orders: seq<seq<int>>): Batch
    requires |orders| == |setup.contexts|
  {
    if Classify(setup.decode, line).PassedOn? then Batch(stages, [])
    else OrderedRounds(partials, stages, orders, Classify(setup.decode, line).DoneLine?, setup.contexts,
                       setup.namespace)
  }

  method RewriteSSELine(setup: Setup, line: string, accumulator: StreamAccumulator, store: Store,
                        display: DisplayAdapter?,
                        notice: string)
    returns (frames: seq<Frame>, finalized: bool, pending: string, ghost orders: seq<seq<int>>)
    requires setup.display == if display == null then None else Some(display.collapsible)
    modifies accumulator, store, display
    ensures var open := if display == null then {} else old(display.openChoices);
      var effect := LineEffect(setup, notice, open, line);
      && frames == effect.frames && finalized == effect.finished && pending == effect.notice
      && (display != null ==> display.openChoices == effect.open)
      && accumulator.partials == IngestAll(old(accumulator.partials), Chunks.Entries(effect.fed))
    ensures |orders| == |setup.contexts|
    ensures !Classify(setup.decode, line).PassedOn? ==> AllEnumerate(orders, accumulator.partials.Keys)
    ensures var batch := LineRounds(setup, line, accumulator.partials, old(accumulator.stages), orders);
      && accumulator.stages == batch.stages
      && store.State() == ApplyAll(store.env, old(store.State()), batch.ops)
  {
    hide OrderedRounds, AllEnumerate, IngestAll, RewriteAll, Noticed, FlushEntries, Classify;
    pending := notice;
    orders := seq(|setup.contexts|, _ => []);
    var kind := ClassifyLine(setup.decode, line);
    match kind
    case PassedOn =>
      frames, finalized := [Verbatim(line)], false;
      NothingIngested(store.env, store.State(), accumulator.partials);
    case DoneLine =>
      orders := StoreUnderContexts(accumulator, store, true, setup);
      NothingIngested(store.env, store.State(), accumulator.partials);
      frames := FinishStream(setup, display, notice);
      pending, finalized := "", true;
    case Data(chunk) =>
      frames, pending, orders := RelayChunk(setup, chunk, LineEnding(line), accumulator, store, display, notice);
      OneChunkFed(chunk.(choices := Noticed(notice, chunk.choices)));
      finalized := false;
  }

  /** The frames in front of the end marker, and the marker itself. */
  method FinishStream(setup: Setup, display: DisplayAdapter?, notice: string) returns (frames: seq<Frame>)
    requires setup.display == if display == null then None else Some(display.collapsible)
    modifies display
    ensures display != null ==> display.openChoices == {}
    ensures var open := if display == null then {} else old(display.openChoices);
      frames == FlushFrames(setup, open) + NoticeFrames(setup, notice) + [DoneFrame]
  {
    hide FlushEntries;
    frames := [];
    if display != null && display.openChoices != {} {
      var closing := display.FlushChunk();
      frames := frames + [OwnFrame(closing, setup.model)];
    }
    if notice != "" {
      frames := frames + [OwnFrame([NoticeEntry(notice)], setup.model)];
    }
    frames := frames + [DoneFrame];
  }

  /** One decoded chunk: injected, accumulated, recorded, displayed. */
  method RelayChunk(setup: Setup, chunk: Chunks.Chunk, ending: string, accumulator: StreamAccumulator, store: Store,
                    display: DisplayAdapter?, notice: string)
    returns (frames: seq<Frame>, pending: string, ghost orders: seq<seq<int>>)
    requires setup.display == if display == null then None else Some(display.collapsible)
    modifies accumulator, store, display
    ensures var open := if display == null then {} else old(display.openChoices);
      var effect := DataEffect(setup, notice, open, chunk, ending);
      && frames == effect.frames && pending == effect.notice
      && (display != null ==> display.openChoices == effect.open)
    ensures accumulator.partials == IngestAll(old(accumulator.partials), Noticed(notice, chunk.choices))
    ensures |orders| == |setup.contexts| && AllEnumerate(orders, accumulator.partials.Keys)
    ensures var batch := OrderedRounds(accumulator.partials, old(accumulator.stages), orders, false, setup.contexts,
                                       setup.namespace);
      && accumulator.stages == batch.stages
      && store.State() == ApplyAll(store.env, old(store.State()), batch.ops)
  {
    hide OrderedRounds, AllEnumerate, IngestAll, RewriteAll, Noticed, ApplyAll;
    pending := notice;
    var choices := new Chunks.Choice[|chunk.choices|](i requires 0 <= i < |chunk.choices| => chunk.choices[i]);
    assert choices[..] == chunk.choices;
    if notice != "" {
      var injected := InjectRecoveryNotice(choices, notice);
      if injected {
        pending := "";
      }
    }
    NoticedByChunk(notice, chunk.choices);
    accumulator.IngestChunk(choices[..]);
    orders := StoreUnderContexts(accumulator, store, false, setup);
    if display != null {
      display.RewriteChunk(choices);
    }
    var model := if chunk.model.Some? then Some(setup.model) else None;
    frames := [ChunkFrame(Chunks.Chunk(choices[..], model), ending)];
  }

  method ClassifyLine(decode: string -> Option<Chunks.Chunk>, line: string) returns (kind: Line)
    ensures kind == Classify(decode, line)
  {
    var trimmed := Trim(line);
    if !IsPrefix("data:", trimmed) {
      return PassedOn;
    }
    var data := Trim(trimmed[5..]);
    if data == "[DONE]" {
      return DoneLine;
    }
    var chunk := decode(data);
    kind := if chunk.None? then PassedOn else Data(chunk.value);
  }

  lemma NothingIngested(env: Env, table: Table, partials: Partials)
    ensures IngestAll(partials, Chunks.Entries([])) == partials
    ensures ApplyAll(env, table, []) == table
  {
  }

  lemma NoticedByChunk(notice: string, entries: seq<Chunks.Choice>)
    ensures notice == "" ==> Noticed(notice, entries) == entries && Pending(notice, entries) == ""
  {
  }

  lemma OneChunkFed(chunk: Chunks.Chunk)
    ensures Chunks.Entries([chunk]) == chunk.choices
  {
    assert [chunk][..0] == [] && [] + chunk.choices == chunk.choices;
  }

  // ----- The loop -----

  /** The effect of the lines read so far; nothing is read after the finish. */
  ghost function Relayed(setup: Setup, notice: string, lines: seq<string>): Effect {
    if lines == [] then Effect([], notice, {}, [], false) else
    var n := |lines| - 1;
    var before := Relayed(setup, notice, lines[..n]);
    if before.finished then before else
    var step := LineEffect(setup, before.notice, before.open, lines[n]);
    Effect(before.fed + step.fed, step.notice, step.open, before.frames + step.frames, step.finished)
  }

  lemma {:induction false} NothingAfterTheFinish(setup: Setup, notice: string, lines: seq<string>, n: nat)
    requires n <= |lines| && Relayed(setup, notice, lines[..n]).finished
    ensures Relayed(setup, notice, lines) == Relayed(setup, notice, lines[..n])
  {
    hide LineEffect;
    if n == |lines| {
      assert lines[..n] == lines;
    } else {
      var m := |lines| - 1;
      assert lines[..m][..n] == lines[..n];
      NothingAfterTheFinish(setup, notice, lines[..m], n);
    }
  }

  /** What has been stored so far: the chunks fed, each with its round. */
  ghost predicate StoredSoFar(setup: Setup, fed: seq<Chunks.Chunk>, visits: seq<seq<seq<int>>>, stored: StreamState) {
    && VisitsChunks(fed, visits, setup.contexts)
    && stored == OrderedStreamed(fed, visits, setup.contexts, setup.namespace)
  }

  ghost predicate StoredAtEnd(setup: Setup, fed: seq<Chunks.Chunk>, visits: Visits, ops: seq<Op>) {
    && VisitsStream(fed, visits, setup.contexts)
    && ops == OrderedOps(fed, visits, setup.contexts, setup.namespace)
  }

  lemma NothingStored(setup: Setup, env: Env, table: Table)
    ensures StoredSoFar(setup, [], [], StreamState(map[], map[], []))
    ensures ApplyAll(env, table, []) == table
  {
  }

  /** The round of a chunk extends what has been stored. */
  lemma StoredAfterChunk(setup: Setup, fed: seq<Chunks.Chunk>, visits: seq<seq<seq<int>>>, stored: StreamState,
                         chunk: Chunks.Chunk, orders: seq<seq<int>>)
    requires |orders| == |setup.contexts| && StoredSoFar(setup, fed, visits, stored)
    requires AllEnumerate(orders, IngestAll(stored.partials, chunk.choices).Keys)
    ensures var partials := IngestAll(stored.partials, chunk.choices);
      var batch := OrderedRounds(partials, stored.stages, orders, false, setup.contexts, setup.namespace);
      StoredSoFar(setup, fed + [chunk], visits + [orders], StreamState(partials, batch.stages, stored.ops + batch.ops))
  {
    hide OrderedRounds, AllEnumerate, IngestAll, OrderedStreamed;
    OrderedPartials(fed, visits, setup.contexts, setup.namespace);
    EntriesAppend(fed, chunk);
    IngestAllConcat(map[], Chunks.Entries(fed), chunk.choices);
    VisitsGrow(fed, visits, setup.contexts, setup.namespace, chunk, orders);
  }

  /** The round at the end completes it, end marker or not. */
  lemma StoredAfterLast(setup: Setup, fed: seq<Chunks.Chunk>, visits: seq<seq<seq<int>>>, stored: StreamState,
                        orders: seq<seq<int>>)
    requires |orders| == |setup.contexts| && StoredSoFar(setup, fed, visits, stored)
    requires AllEnumerate(orders, stored.partials.Keys)
    ensures var batch := OrderedRounds(stored.partials, stored.stages, orders, true, setup.contexts, setup.namespace);
      StoredAtEnd(setup, fed, Visits(visits, orders), stored.ops + batch.ops)
  {
    hide OrderedRounds, AllEnumerate, IngestAll, OrderedStreamed;
    OrderedPartials(fed, visits, setup.contexts, setup.namespace);
  }

  /** The visiting orders after a line: a chunk adds a round. */
  function VisitsAfter(kind: Line, visits: seq<seq<seq<int>>>, orders: seq<seq<int>>): seq<seq<seq<int>>> {
    if kind.Data? then visits + [orders] else visits
  }

  lemma StoredAfterLine(setup: Setup, line: string, notice: string, open: set<int>, fed: seq<Chunks.Chunk>,
                        visits: seq<seq<seq<int>>>, stored: StreamState, orders: seq<seq<int>>)
    requires |orders| == |setup.contexts| && StoredSoFar(setup, fed, visits, stored)
    requires var after := IngestAll(stored.partials, Chunks.Entries(LineEffect(setup, notice, open, line).fed));
      !Classify(setup.decode, line).PassedOn? ==> AllEnumerate(orders, after.Keys)
    ensures var effect := LineEffect(setup, notice, open, line);
      var after := IngestAll(stored.partials, Chunks.Entries(effect.fed));
      var batch := LineRounds(setup, line, after, stored.stages, orders);
      var next := VisitsAfter(Classify(setup.decode, line), visits, orders);
      if effect.finished then StoredAtEnd(setup, fed + effect.fed, Visits(next, orders), stored.ops + batch.ops)
      else StoredSoFar(setup, fed + effect.fed, next, StreamState(after, batch.stages, stored.ops + batch.ops))
  {
    hide OrderedRounds, AllEnumerate, IngestAll, Noticed, FlushEntries, Classify, StoredSoFar, StoredAtEnd;
    match Classify(setup.decode, line)
    case PassedOn =>
      NothingIngestedFrom(stored.partials);
      assert fed + [] == fed && stored.ops + [] == stored.ops;
    case DoneLine =>
      NothingIngestedFrom(stored.partials);
      assert fed + [] == fed;
      StoredAfterLast(setup, fed, visits, stored, orders);
    case Data(_) =>
      var chunk := LineEffect(setup, notice, open, line).fed[0];
      OneChunkFed(chunk);
      StoredAfterChunk(setup, fed, visits, stored, chunk, orders);
  }

  lemma NothingIngestedFrom(partials: Partials)
    ensures IngestAll(partials, Chunks.Entries([])) == partials
  {
  }

  lemma NothingOpensWithoutDisplay(setup: Setup, notice: string, open: set<int>, line: string)
    requires setup.display.None?
    ensures LineEffect(setup, notice, open, line).open == open
  {
  }

  /** Relays a whole response. What the client receives is `Relayed`; what is stored is the recording of
      the chunks fed to the accumulator, visited in the orders that the ghost result reports, whether or
      not the stream reaches its end marker. */
  method ProxyStreaming(setup: Setup, lines: seq<string>, store: Store, recoveryNotice: string)
    returns (written: seq<Frame>, finalized: bool, ghost visits: Visits, ghost ops: seq<Op>)
    modifies store
    ensures var relayed := Relayed(setup, recoveryNotice, lines);
      && written == relayed.frames && finalized == relayed.finished
      && store.State() == ApplyAll(store.env, old(store.State()), ops)
      && StoredAtEnd(setup, relayed.fed, visits, ops)
  {
    hide LineEffect, LineRounds, StoredSoFar, StoredAtEnd, AllEnumerate, IngestAll, Classify, OrderedRounds, ApplyAll;
    var accumulator := new StreamAccumulator();
    var display: DisplayAdapter? := null;
    if setup.display.Some? {
      display := new DisplayAdapter(setup.display.value);
    }
    var notice := recoveryNotice;
    written, finalized := [], false;
    ghost var start := store.State();
    ghost var relayed, stored := Effect([], notice, {}, [], false), StreamState(map[], map[], []);
    ghost var rounds: seq<seq<seq<int>>>, last: seq<seq<int>> := [], [];
    NothingStored(setup, store.env, start);
    for i := 0 to |lines|
      invariant relayed == Relayed(setup, recoveryNotice, lines[..i])
      invariant relayed == Effect(relayed.fed, notice, if display == null then {} else display.openChoices, written,
                                  false)
      invariant setup.display == if display == null then None else Some(display.collapsible)
      invariant display == null || fresh(display)
      invariant stored == StreamState(accumulator.partials, accumulator.stages, stored.ops)
      invariant StoredSoFar(setup, relayed.fed, rounds, stored)
      invariant store.State() == ApplyAll(store.env, start, stored.ops)
    {
      ghost var effect := LineEffect(setup, notice, relayed.open, lines[i]);
      assert lines[..i + 1][..i] == lines[..i];
      if display == null {
        NothingOpensWithoutDisplay(setup, notice, relayed.open, lines[i]);
      }
      var frames, done, pending;
      ghost var orders;
      frames, done, pending, orders := RewriteSSELine(setup, lines[i], accumulator, store, display, notice);
      StoredAfterLine(setup, lines[i], notice, relayed.open, relayed.fed, rounds, stored, orders);
      ghost var batch := LineRounds(setup, lines[i], accumulator.partials, stored.stages, orders);
      ApplyAllConcat(store.env, start, stored.ops, batch.ops);
      stored := StreamState(accumulator.partials, accumulator.stages, stored.ops + batch.ops);
      rounds := VisitsAfter(Classify(setup.decode, lines[i]), rounds, orders);
      notice := pending;
      written := written + frames;
      relayed := Effect(relayed.fed + effect.fed, effect.notice, effect.open, relayed.frames + effect.frames,
                        effect.finished);
      if done {
        NothingAfterTheFinish(setup, recoveryNotice, lines, i + 1);
        return written, true, Visits(rounds, orders), stored.ops;
      }
    }
    assert lines[..|lines|] == lines;
    last := StoreUnderContexts(accumulator, store, true, setup);
    ghost var batch := OrderedRounds(accumulator.partials, stored.stages, last, true, setup.contexts, setup.namespace);
    ApplyAllConcat(store.env, start, stored.ops, batch.ops);
    StoredAfterLast(setup, relayed.fed, rounds, stored, last);
    visits, ops := Visits(rounds, last), stored.ops + batch.ops;
  }
}
