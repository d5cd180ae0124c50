/** Whole conversations as they run with streaming and display on: every response is streamed in chunks,
    recorded in stages, shown with its reasoning printed into the content, and echoed as it was shown. */
module DisplayedSession {
  import opened Messages
  import opened Keys
  import opened ReasoningStore
  import opened Recovery
  import opened Prepare
  import opened Recording
  import opened Accumulator
  import opened StreamRecording
  import opened Session
  import AccumulatorFold
  import Chunks
  import DisplayBlocks
  import DisplayFold
  import Normalize
  import Thinking

  /** A streamed response of one choice, the client's echo of what it was shown, and what it then appends. */
  datatype StreamedTurn = StreamedTurn(choice: int, chunks: seq<Chunks.Chunk>, echo: Message, added: seq<Message>)

  function ResponseOf(t: StreamedTurn): Message {
    StreamedMessage(t.choice, t.chunks)
  }

  function TurnOf(t: StreamedTurn): Turn {
    Turn(ResponseOf(t), t.echo, t.added)
  }

  /** The content of a reply that a strip leaves alone: no block, no white space in front, no notice. */
  ghost predicate CleanContent(content: string) {
    Thinking.NoBlock(content) && Thinking.TrimSpace(content) == content && !IsPrefix(NoticeText(), content)
  }

  /** Reasoning that comes first and does not contain the closing tag, clean content, nothing after the
      finish; the echo repeats what was displayed and the tool calls, with or without the reasoning field. */
  ghost predicate GoodStreamedTurn(collapsible: bool, t: StreamedTurn) {
    var response := ResponseOf(t);
    var own := Chunks.Own(Chunks.Entries(t.chunks), t.choice);
    && OneChoice(t.choice, t.chunks) && QuietAfterFinish(t.choice, t.chunks) && DisplayFold.ReasoningFirst(own)
    && response.role == Assistant && response.reasoning.Some?
    && Thinking.NoClosingTag(collapsible, response.reasoning.value)
    && CleanContent(response.content.GetOr(""))
    && t.echo.role == Assistant && (t.echo.reasoning == None || t.echo.reasoning == response.reasoning)
    && t.echo.content == Some(DisplayBlocks.ClientContent(collapsible, Chunks.Entries(t.chunks), t.choice))
    && NormalizeToolCalls(t.echo.toolCalls) == NormalizeToolCalls(response.toolCalls)
    && forall m | m in t.added :: Normalize.NormalRole(m.role) != Assistant && Normalize.NormalRole(m.role) != System
  }

  /** What was displayed is stripped back to what was recorded. */
  lemma DisplayIsStripped(collapsible: bool, t: StreamedTurn)
    requires GoodStreamedTurn(collapsible, t)
    ensures Thinking.Strip(t.echo.content.GetOr("")) == ResponseOf(t).content.GetOr("")
  {
    hide Thinking.BlockStart, Thinking.BlockEnd, Thinking.Strip, DisplayBlocks.ClientContent, AccumulatorFold.Assembled,
      NoticeText, DisplayFold.ReasoningFirst, QuietAfterFinish, Thinking.NoBlock, Thinking.NoClosingTag,
      NormalizeToolCalls;
    var entries, response := Chunks.Entries(t.chunks), ResponseOf(t);
    DisplayFold.AccumulatedText(entries, t.choice);
    DisplayFold.StreamedDisplayIsFold(collapsible, entries, t.choice);
    if response.reasoning.value == "" {
      Thinking.CleanContentIsSteady(response.content.value);
    } else {
      Thinking.PrintStripRoundTrip(collapsible, response.reasoning.value, response.content.value);
    }
  }

  lemma StreamedTurnIsGood(collapsible: bool, t: StreamedTurn)
    requires GoodStreamedTurn(collapsible, t)
    ensures GoodTurn(TurnOf(t))
  {
    hide Thinking.Strip, NoticeText, DisplayBlocks.ClientContent, StreamedMessage, Thinking.NoBlock,
      Thinking.NoClosingTag, DisplayFold.ReasoningFirst, QuietAfterFinish;
    DisplayIsStripped(collapsible, t);
    Thinking.CleanContentIsSteady(ResponseOf(t).content.GetOr(""));
  }

  // ----- Recording the stream -----

  /** The store after a request was prepared and its streamed response was recorded in stages. */
  function AfterStream(env: Env, table: Table, settings: Settings, raw: seq<Message>, t: StreamedTurn): Table {
    var prepared := PrepareRequest(Normalize.Backed(env, table), settings, raw);
    var end := Repaired(Normalize.Backed(env, table), settings, raw).history.backend;
    if end.NoStore? then table else
    ApplyAll(env, end.table, StreamOps(t.choice, t.chunks, prepared.contexts, prepared.namespace))
  }

  /** Every write goes to a key of some message under this context. */
  ghost predicate Under(ops: seq<Op>, context: RecordingContext, namespace: Namespace) {
    forall op | op in ops :: op.Put? && WrittenUnder(op.key, context, namespace)
  }

  ghost predicate WrittenUnder(key: Key, context: RecordingContext, namespace: Namespace) {
    exists m: Message :: key in MessageKeys(m, context.scope, Some(namespace), context.messages)
  }

  lemma DecisionIsUnder(stages: Stages, j: int, p: Partial, atEnd: bool, context: RecordingContext,
                        namespace: Namespace)
    ensures Under(StoreIfReady(stages, j, p, atEnd, context, namespace).ops, context, namespace)
  {
    hide StoreOps, WrittenUnder;
    StoreIsUnder(ToMessage(p), context, namespace);
  }

  lemma RoundIsUnder(partials: Partials, stages: Stages, j: int, atEnd: bool, context: RecordingContext,
                     namespace: Namespace)
    ensures Under(StoreRounds(partials, stages, j, atEnd, [context], namespace).ops, context, namespace)
  {
    hide StoreIfReady, StorePass, WrittenUnder;
    assert [context][..0] == [];
    assert StoreRounds(partials, stages, j, atEnd, [], namespace) == Batch(stages, []);
    var pass := StorePass(partials, stages, VisitOrder(partials, j), atEnd, context, namespace);
    assert StoreRounds(partials, stages, j, atEnd, [context], namespace).ops == [] + pass.ops;
    if j in partials {
      PassOfOne(partials, stages, j, atEnd, context, namespace);
      DecisionIsUnder(stages, j, partials[j], atEnd, context, namespace);
    } else {
      NoPass(partials, stages, atEnd, context, namespace);
    }
  }

  lemma StoreIsUnder(message: Message, context: RecordingContext, namespace: Namespace)
    ensures Under(StoreOps(message, context.scope, Some(namespace), context.messages), context, namespace)
  {
    hide MessageKeys;
    var ops := StoreOps(message, context.scope, Some(namespace), context.messages);
    if message.role == Assistant && message.reasoning.Some? {
      StoreOpsContents(message, context.scope, Some(namespace), context.messages);
      forall op | op in ops
        ensures WrittenUnder(op.key, context, namespace)
      {
        assert op.key in MessageKeys(message, context.scope, Some(namespace), context.messages);
      }
    }
  }

  lemma {:induction false} StreamIsUnder(j: int, chunks: seq<Chunks.Chunk>, context: RecordingContext,
                                         namespace: Namespace)
    ensures Under(Streamed(j, chunks, [context], namespace).ops, context, namespace)
  {
    hide WrittenUnder, StoreRounds, IngestAll;
    if chunks != [] {
      var n := |chunks| - 1;
      StreamIsUnder(j, chunks[..n], context, namespace);
      var before := Streamed(j, chunks[..n], [context], namespace);
      RoundIsUnder(IngestAll(before.partials, chunks[n].choices), before.stages, j, false, context, namespace);
    }
  }

  lemma StreamOpsAreUnder(j: int, chunks: seq<Chunks.Chunk>, context: RecordingContext, namespace: Namespace)
    ensures Under(StreamOps(j, chunks, [context], namespace), context, namespace)
  {
    hide WrittenUnder, StoreRounds, Streamed;
    StreamIsUnder(j, chunks, context, namespace);
    var s := Streamed(j, chunks, [context], namespace);
    RoundIsUnder(s.partials, s.stages, j, true, context, namespace);
  }

  /** The stream's last write of the response's own key stores the complete reasoning. */
  lemma OwnKeyIsWritten(t: StreamedTurn, context: RecordingContext, namespace: Namespace)
    requires QuietAfterFinish(t.choice, t.chunks)
    requires ResponseOf(t).role == Assistant && ResponseOf(t).reasoning.Some?
    ensures LastWritten(StreamOps(t.choice, t.chunks, [context], namespace),
                        Scoped(context.scope, MessageSignature(ResponseOf(t))))
         == ResponseOf(t).reasoning
  {
    hide StreamOps, StreamedMessage, StoreOps, EndsWith, QuietAfterFinish, MessageKeys;
    var m, key := ResponseOf(t), Scoped(context.scope, MessageSignature(ResponseOf(t)));
    StreamEndsWithMessage(t.choice, t.chunks, [context], namespace);
    MessageOpsContents(m, namespace, [context]);
    FirstMessageKey(m, context.scope, Some(namespace), context.messages);
    assert context in [context];
    WrittenAlike(MessageOps(m, namespace, [context]), key, m.reasoning.value);
    EndDecides(StreamOps(t.choice, t.chunks, [context], namespace), MessageOps(m, namespace, [context]), key);
  }

  lemma EndDecides(ops: seq<Op>, tail: seq<Op>, key: Key)
    requires EndsWith(ops, tail) && LastWritten(tail, key).Some?
    ensures LastWritten(ops, key) == LastWritten(tail, key)
  {
    assert ops == ops[..|ops| - |tail|] + tail;
    LastWrittenConcat(ops[..|ops| - |tail|], tail, key);
  }

  // ----- Covering -----

  function ContextOf(settings: Settings, raw: seq<Message>): RecordingContext {
    RecordingContext(ConversationScope(PreRepair(settings, raw), Some(SessionNamespace(settings, raw))),
                     PreRepair(settings, raw))
  }

  /** Recording the stream evicts neither the new turn's own row nor, of the earlier rows, one that was still
      there. */
  ghost predicate SparedInStream(env: Env, table: Table, settings: Settings, raw: seq<Message>, t: StreamedTurn) {
    forall p: nat | p <= |raw| && Extend(raw, TurnOf(t))[p].role == Assistant ::
      SparedByStream(env, table, settings, raw, t, p)
  }

  ghost predicate SparedByStream(env: Env, table: Table, settings: Settings, raw: seq<Message>, t: StreamedTurn, p: nat)
    requires p <= |raw|
  {
    p == |raw| || PositionKey(settings, raw, p) in PassTable(env, table, settings, raw, |raw|).rows ==>
      PositionKey(settings, Extend(raw, TurnOf(t)), p) in AfterStream(env, table, settings, raw, t).rows
  }

  /** No row of the conversation is evicted while a request is prepared and its response is recorded: without
      limits, or because the limits leave room. */
  ghost predicate Spared(env: Env, table: Table, settings: Settings, raw: seq<Message>, t: StreamedTurn) {
    NoEviction(env) || (SparedInPass(env, table, settings, raw) && SparedInStream(env, table, settings, raw, t))
  }

  /** A covered request is recorded under one context, after a pass that adds no scoped row. */
  lemma AfterCoveredRequest(env: Env, table: Table, settings: Settings, raw: seq<Message>, truth: Truth,
                            t: StreamedTurn)
    requires settings.thinking && Spared(env, table, settings, raw, t)
    requires WellFormed(raw, truth) && Covered(table.rows, settings, raw, truth)
    ensures var pass := PassTable(env, table, settings, raw, |raw|);
      && AfterStream(env, table, settings, raw, t)
         == ApplyAll(env, pass, StreamOps(t.choice, t.chunks, [ContextOf(settings, raw)],
                                          SessionNamespace(settings, raw)))
      && ScopedRowsOnlyLeave(table.rows, pass.rows)
      && SparedInPass(env, table, settings, raw)
  {
    hide NoticeText, RecoverySystem, PrepareRequest, Repaired, FaithfulEcho, StreamOps, NoEviction, SparedInPass,
      PassTable, SessionNamespace, ScopedRowsOnlyLeave, Covered, PreRepair, ConversationScope, ApplyAll;
    if NoEviction(env) {
      SparedWithoutLimits(env, table, settings, raw);
    }
    CoveredRequest(env, table, settings, raw, truth);
    PreparedNamespace(Normalize.Backed(env, table), settings, raw);
  }

  /** The row of an earlier turn is still there. */
  lemma EarlierIsStillCovered(env: Env, table: Table, settings: Settings, raw: seq<Message>, truth: Truth,
                              t: StreamedTurn, p: nat)
    requires settings.thinking && GoodTurn(TurnOf(t)) && Spared(env, table, settings, raw, t)
    requires WellFormed(raw, truth) && Covered(table.rows, settings, raw, truth)
    requires p < |raw| && raw[p].role == Assistant
    ensures var rows, key := AfterStream(env, table, settings, raw, t).rows,
      PositionKey(settings, Extend(raw, TurnOf(t)), p);
      key in rows && Some(rows[key].reasoning) == truth[p]
  {
    hide FaithfulEcho, StreamOps, NoEviction, SessionNamespace, PreRepair, ConversationScope, ApplyAll, AfterStream,
      PositionKey, PassTable, WrittenUnder, SparedInPass, GoodTurn;
    EchoReasoning(TurnOf(t));
    PositionKeyIsStable(settings, raw, [t.echo] + t.added, p);
    assert NoEviction(env) || SparedByStream(env, table, settings, raw, t, p);
    AfterCoveredRequest(env, table, settings, raw, truth, t);
    var context, namespace := ContextOf(settings, raw), SessionNamespace(settings, raw);
    var ops, key := StreamOps(t.choice, t.chunks, [context], namespace), PositionKey(settings, raw, p);
    StreamOpsAreUnder(t.choice, t.chunks, context, namespace);
    EarlierIsNotUnder(settings, raw, p, context);
    NotWritten(ops, key);
    RowIsLastWrite(env, PassTable(env, table, settings, raw, |raw|), ops, key);
    PositionKeyIsScoped(settings, raw, p);
    SparedAtEnd(env, table, settings, raw, p);
  }

  /** The row of the new turn is there and holds all of its reasoning. */
  lemma NewTurnIsCovered(env: Env, table: Table, settings: Settings, raw: seq<Message>, truth: Truth,
                         collapsible: bool, t: StreamedTurn)
    requires settings.thinking && GoodStreamedTurn(collapsible, t) && Spared(env, table, settings, raw, t)
    requires WellFormed(raw, truth) && Covered(table.rows, settings, raw, truth)
    ensures var rows, key := AfterStream(env, table, settings, raw, t).rows,
      PositionKey(settings, Extend(raw, TurnOf(t)), |raw|);
      key in rows && Some(rows[key].reasoning) == ResponseOf(t).reasoning
  {
    StreamedTurnIsGood(collapsible, t);
    hide FaithfulEcho, StreamOps, NoEviction, SessionNamespace, PreRepair, ConversationScope, ApplyAll, AfterStream,
      PositionKey, PassTable, WrittenUnder, SparedInPass, MessageSignature, StreamedMessage, QuietAfterFinish, Covered;
    assert Extend(raw, TurnOf(t))[|raw|] == t.echo;
    assert NoEviction(env) || SparedByStream(env, table, settings, raw, t, |raw|);
    hide Extend, GoodTurn;
    AfterCoveredRequest(env, table, settings, raw, truth, t);
    var context, namespace := ContextOf(settings, raw), SessionNamespace(settings, raw);
    var ops, key := StreamOps(t.choice, t.chunks, [context], namespace),
      PositionKey(settings, Extend(raw, TurnOf(t)), |raw|);
    StreamOpsAreUnder(t.choice, t.chunks, context, namespace);
    EchoKeyIsResponseKey(settings, raw, TurnOf(t));
    OwnKeyIsWritten(t, context, namespace);
    RowIsLastWrite(env, PassTable(env, table, settings, raw, |raw|), ops, key);
  }

  lemma StreamedPositionIsCovered(env: Env, table: Table, settings: Settings, raw: seq<Message>, truth: Truth,
                                  collapsible: bool,
                                  t: StreamedTurn, p: nat)
    requires settings.thinking && GoodStreamedTurn(collapsible, t) && Spared(env, table, settings, raw, t)
    requires WellFormed(raw, truth) && Covered(table.rows, settings, raw, truth)
    requires p <= |raw| && Extend(raw, TurnOf(t))[p].role == Assistant
    ensures var rows, key := AfterStream(env, table, settings, raw, t).rows,
      PositionKey(settings, Extend(raw, TurnOf(t)), p);
      key in rows && Some(rows[key].reasoning) == ExtendTruth(truth, TurnOf(t))[p]
  {
    hide FaithfulEcho, NoEviction, SessionNamespace, AfterStream, PositionKey, StreamedMessage, QuietAfterFinish,
      Covered, Spared, GoodTurn;
    if p < |raw| {
      StreamedTurnIsGood(collapsible, t);
      EarlierIsStillCovered(env, table, settings, raw, truth, t, p);
    } else {
      NewTurnIsCovered(env, table, settings, raw, truth, collapsible, t);
    }
  }

  lemma EarlierIsNotUnder(settings: Settings, raw: seq<Message>, p: nat, context: RecordingContext)
    requires p < |raw|
    requires context.messages == PreRepair(settings, raw)
    requires context.scope == ConversationScope(PreRepair(settings, raw), Some(SessionNamespace(settings, raw)))
    ensures !WrittenUnder(PositionKey(settings, raw, p), context, SessionNamespace(settings, raw))
  {
    hide PositionKey, SessionNamespace, PreRepair, MessageKeys, ConversationScope;
    forall m: Message
      ensures PositionKey(settings, raw, p) !in
        MessageKeys(m, context.scope, Some(SessionNamespace(settings, raw)), context.messages)
    {
      EarlierKeyIsNotRecorded(settings, raw, p, m);
    }
  }

  lemma StreamedTurnIsCovered(env: Env, table: Table, settings: Settings, raw: seq<Message>, truth: Truth,
                              collapsible: bool, t: StreamedTurn)
    requires settings.thinking && GoodStreamedTurn(collapsible, t) && Spared(env, table, settings, raw, t)
    requires WellFormed(raw, truth) && Covered(table.rows, settings, raw, truth)
    ensures WellFormed(Extend(raw, TurnOf(t)), ExtendTruth(truth, TurnOf(t)))
    ensures Covered(AfterStream(env, table, settings, raw, t).rows, settings, Extend(raw, TurnOf(t)),
                    ExtendTruth(truth, TurnOf(t)))
  {
    hide NoticeText, PositionKey, AfterStream, FaithfulEcho, ExtendTruth, Extend, GoodStreamedTurn, GoodTurn, Spared;
    StreamedTurnIsGood(collapsible, t);
    ExtendedIsWellFormed(raw, truth, TurnOf(t));
    forall p: nat | p < |Extend(raw, TurnOf(t))| && Extend(raw, TurnOf(t))[p].role == Assistant
      ensures var rows, key := AfterStream(env, table, settings, raw, t).rows,
        PositionKey(settings, Extend(raw, TurnOf(t)), p);
        key in rows && Some(rows[key].reasoning) == ExtendTruth(truth, TurnOf(t))[p]
    {
      StreamedPositionIsCovered(env, table, settings, raw, truth, collapsible, t, p);
    }
  }

  // ----- Whole conversations -----

  function History(first: seq<Message>, turns: seq<StreamedTurn>): seq<Message> {
    if turns == [] then first else Extend(History(first, turns[..|turns| - 1]), TurnOf(turns[|turns| - 1]))
  }

  function TruthOf(first: seq<Message>, turns: seq<StreamedTurn>): (r: Truth)
    ensures |r| == |History(first, turns)|
  {
    if turns == [] then seq(|first|, _ => None)
    else ExtendTruth(TruthOf(first, turns[..|turns| - 1]), TurnOf(turns[|turns| - 1]))
  }

  /** `tables[k]` is the store when request `k` arrives; between requests it may change in any way that
      spares the conversation's own rows. */
  ghost predicate StreamedConversation(env: Env, settings: Settings, collapsible: bool, first: seq<Message>,
                                       turns: seq<StreamedTurn>, tables: seq<Table>) {
    && (forall m | m in first :: m.role != Assistant)
    && (forall t | t in turns :: GoodStreamedTurn(collapsible, t))
    && |tables| == |turns| + 1
    && forall k | 0 <= k < |turns| ::
         Spares(AfterStream(env, tables[k], settings, History(first, turns[..k]), turns[k]).rows, tables[k + 1].rows,
                settings, History(first, turns[..k + 1]))
  }

  /** With limits: the requests evict no row of the conversation while they are prepared and recorded. */
  ghost predicate UnevictedStreams(env: Env, settings: Settings, first: seq<Message>, turns: seq<StreamedTurn>,
                                   tables: seq<Table>)
    requires |tables| == |turns| + 1
  {
    && (forall k | 0 <= k <= |turns| :: SparedInPass(env, tables[k], settings, History(first, turns[..k])))
    && forall k | 0 <= k < |turns| :: SparedInStream(env, tables[k], settings, History(first, turns[..k]), turns[k])
  }

  lemma {:induction false} StreamedConversationIsCovered(env: Env, settings: Settings, collapsible: bool,
                                                         first: seq<Message>, turns: seq<StreamedTurn>,
                                                         tables: seq<Table>, k: nat)
    requires settings.thinking && k <= |turns|
    requires StreamedConversation(env, settings, collapsible, first, turns, tables)
    requires NoEviction(env) || UnevictedStreams(env, settings, first, turns, tables)
    ensures WellFormed(History(first, turns[..k]), TruthOf(first, turns[..k]))
    ensures Covered(tables[k].rows, settings, History(first, turns[..k]), TruthOf(first, turns[..k]))
  {
    hide PositionKey, FaithfulEcho, AfterStream, Spares, NoEviction, GoodStreamedTurn, Covered, SparedInPass,
      SparedInStream;
    if k == 0 {
      assert turns[..k] == [];
      FirstIsCovered(tables[0].rows, settings, first);
    } else {
      var before, t := turns[..k - 1], turns[k - 1];
      StreamedConversationIsCovered(env, settings, collapsible, first, turns, tables, k - 1);
      assert turns[..k][..k - 1] == before;
      assert t in turns && History(first, turns[..k]) == Extend(History(first, before), TurnOf(t));
      StreamedTurnIsCovered(env, tables[k - 1], settings, History(first, before), TruthOf(first, before), collapsible,
                            t);
      SparedIsCovered(AfterStream(env, tables[k - 1], settings, History(first, before), t).rows, tables[k].rows,
                      settings, History(first, turns[..k]), TruthOf(first, turns[..k]));
    }
  }

  /** Whole-run repair with streaming and display on: in every conversation whose responses are streamed in
      any chunks, printed into the content in either style, and echoed as shown, every turn that needs
      reasoning is replayed with exactly the reasoning that was streamed, and recovery never happens; without
      limits, and with limits as long as no row of the conversation is evicted. */
  lemma EveryDisplayedTurnIsReplayed(env: Env, settings: Settings, collapsible: bool, first: seq<Message>,
                                     turns: seq<StreamedTurn>, tables: seq<Table>, k: nat)
    requires settings.thinking && k <= |turns|
    requires StreamedConversation(env, settings, collapsible, first, turns, tables)
    requires NoEviction(env) || UnevictedStreams(env, settings, first, turns, tables)
    ensures RequestOk(env, tables[k], settings, History(first, turns[..k]), TruthOf(first, turns[..k]))
  {
    hide NoEviction, SparedInPass, SparedInStream, Spares, GoodStreamedTurn;
    StreamedConversationIsCovered(env, settings, collapsible, first, turns, tables, k);
    if NoEviction(env) {
      SparedWithoutLimits(env, tables[k], settings, History(first, turns[..k]));
    }
    CoveredRequest(env, tables[k], settings, History(first, turns[..k]), TruthOf(first, turns[..k]));
  }
}
