/** Recording a complete (non-streamed) response. */
module Recording {
  import opened Messages
  import opened Keys
  import opened ReasoningStore
  import opened Prepare

  /** The writes for one response message: one batch per recording context. */
  function MessageOps(message: Message, namespace: Namespace, contexts: seq<RecordingContext>): seq<Op> {
    if contexts == [] then [] else
    var last := contexts[|contexts| - 1];
    MessageOps(message, namespace, contexts[..|contexts| - 1])
    + StoreOps(message, last.scope, Some(namespace), last.messages)
  }

  function RecordOps(choices: seq<Message>, namespace: Namespace, contexts: seq<RecordingContext>): seq<Op> {
    if choices == [] then [] else
    RecordOps(choices[..|choices| - 1], namespace, contexts)
    + MessageOps(choices[|choices| - 1], namespace, contexts)
  }

  method RecordResponseReasoning(store: Store, choices: seq<Message>, namespace: Namespace,
                                 contexts: seq<RecordingContext>)
    returns (stored: nat)
    modifies store
    ensures store.State() == ApplyAll(store.env, old(store.State()), RecordOps(choices, namespace, contexts))
    ensures stored == |RecordOps(choices, namespace, contexts)|
  {
    stored := 0;
    for i := 0 to |choices|
      invariant store.State() == ApplyAll(store.env, old(store.State()), RecordOps(choices[..i], namespace, contexts))
      invariant stored == |RecordOps(choices[..i], namespace, contexts)|
    {
      var n := StoreInContexts(store, choices[i], namespace, contexts);
      stored := stored + n;
      assert choices[..i + 1][..i] == choices[..i];
      ApplyAllConcat(store.env, old(store.State()), RecordOps(choices[..i], namespace, contexts),
                     MessageOps(choices[i], namespace, contexts));
    }
    assert choices[..|choices|] == choices;
  }

  lemma NothingRecorded(env: Env, table: Table, message: Message, namespace: Namespace)
    ensures MessageOps(message, namespace, []) == [] && ApplyAll(env, table, []) == table
  {
  }

  lemma MessageOpsStep(message: Message, namespace: Namespace, contexts: seq<RecordingContext>, i: nat)
    requires i < |contexts|
    ensures MessageOps(message, namespace, contexts[..i + 1])
         == MessageOps(message, namespace, contexts[..i])
            + StoreOps(message, contexts[i].scope, Some(namespace), contexts[i].messages)
  {
    hide StoreOps;
    assert contexts[..i + 1][..i] == contexts[..i];
  }

  method StoreInContexts(store: Store, message: Message, namespace: Namespace, contexts: seq<RecordingContext>)
    returns (stored: nat)
    modifies store
    ensures store.State() == ApplyAll(store.env, old(store.State()), MessageOps(message, namespace, contexts))
    ensures stored == |MessageOps(message, namespace, contexts)|
  {
    hide ApplyAll, StoreOps, MessageOps;
    stored := 0;
    NothingRecorded(store.env, store.State(), message, namespace);
    for i := 0 to |contexts|
      invariant store.State() == ApplyAll(store.env, old(store.State()), MessageOps(message, namespace, contexts[..i]))
      invariant stored == |MessageOps(message, namespace, contexts[..i])|
    {
      var n := store.StoreAssistantMessage(message, contexts[i].scope, Some(namespace), contexts[i].messages);
      stored := stored + n;
      MessageOpsStep(message, namespace, contexts, i);
      ApplyAllConcat(store.env, old(store.State()), MessageOps(message, namespace, contexts[..i]),
                     StoreOps(message, contexts[i].scope, Some(namespace), contexts[i].messages));
    }
    assert contexts[..|contexts|] == contexts;
  }

  /** The recovery notice goes in front of the first choice, before the response is recorded. */
  function PrefixContent(choices: seq<Message>, notice: string): seq<Message> {
    if choices == [] || notice == "" then choices
    else [choices[0].(content := Some(notice + choices[0].content.GetOr("")))] + choices[1..]
  }

  /** The loop returns at the first choice. */
  method PrefixResponseContent(choices: array<Message>, prefix: string) returns (prefixed: bool)
    modifies choices
    ensures prefixed <==> choices.Length > 0
    ensures prefix != "" ==> choices[..] == PrefixContent(old(choices[..]), prefix)
    ensures forall i | 1 <= i < choices.Length :: choices[i] == old(choices[i])
    ensures choices.Length > 0 ==>
      && choices[0] == old(choices[0]).(content := choices[0].content)
      && choices[0].content == Some(prefix + (if old(choices[0]).content == None then ""
                                              else old(choices[0]).content.value))
  {
    for i := 0 to choices.Length
      invariant i == 0
    {
      choices[i] := choices[i].(content := Some(prefix + choices[i].content.GetOr("")));
      return true;
    }
    return false;
  }

  // ----- What a batch of writes leaves -----

  /** No limits: pruning removes nothing. */
  ghost predicate NoEviction(env: Env) {
    env.maxAge == 0 && env.maxRows == 0
  }

  ghost predicate OnlyPuts(ops: seq<Op>) {
    forall op | op in ops :: op.Put?
  }

  /** The reasoning that the last write of `key` stores, if any. */
  function LastWritten(ops: seq<Op>, key: Key): Option<string> {
    if ops == [] then None else
    var op := ops[|ops| - 1];
    if op.Put? && op.key == key then Some(op.reasoning) else LastWritten(ops[..|ops| - 1], key)
  }

  lemma {:induction false} LastWrittenConcat(a: seq<Op>, b: seq<Op>, key: Key)
    ensures LastWritten(a + b, key) == if LastWritten(b, key).Some? then LastWritten(b, key) else LastWritten(a, key)
  {
    if b == [] {
      assert a + b == a;
    } else {
      assert (a + b)[..|a + b| - 1] == a + b[..|b| - 1];
      LastWrittenConcat(a, b[..|b| - 1], key);
    }
  }

  lemma PruneOnlyRemoves(env: Env, rows: map<Key, Row>, now: int)
    ensures forall k | k in PruneRows(env, rows, now) :: k in rows && PruneRows(env, rows, now)[k] == rows[k]
    ensures NoEviction(env) ==> PruneRows(env, rows, now) == rows
  {
  }

  /** Under any limits, a row that is there after a batch of writes holds the last reasoning written to its
      key, or is untouched if there was no such write; and without limits it is there. */
  lemma {:induction false} RowIsLastWrite(env: Env, table: Table, ops: seq<Op>, key: Key)
    requires OnlyPuts(ops)
    ensures var rows, last := ApplyAll(env, table, ops).rows, LastWritten(ops, key);
      && (key in rows ==> if last.Some? then rows[key].reasoning == last.value
                          else key in table.rows && rows[key] == table.rows[key])
      && (NoEviction(env) && (last.Some? || key in table.rows) ==> key in rows)
  {
    hide PruneRows, NoEviction;
    if ops != [] {
      var n := |ops| - 1;
      assert ops[n] in ops;
      RowIsLastWrite(env, table, ops[..n], key);
      var before := ApplyAll(env, table, ops[..n]);
      PruneOnlyRemoves(env, before.rows[ops[n].key := Row(ops[n].reasoning, env.clock(before.ticks))],
                       env.clock(before.ticks + 1));
    }
  }

  lemma {:induction false} NotWritten(ops: seq<Op>, key: Key)
    requires OnlyPuts(ops) && forall op | op in ops :: op.key != key
    ensures LastWritten(ops, key) == None
  {
    if ops != [] {
      assert ops[|ops| - 1] in ops;
      NotWritten(ops[..|ops| - 1], key);
    }
  }

  lemma {:induction false} WrittenAlike(ops: seq<Op>, key: Key, reasoning: string)
    requires OnlyPuts(ops) && forall op | op in ops :: op.reasoning == reasoning
    requires exists op :: op in ops && op.key == key
    ensures LastWritten(ops, key) == Some(reasoning)
  {
    var n := |ops| - 1;
    assert ops[n] in ops;
    if ops[n].key != key {
      var op :| op in ops && op.key == key;
      assert op in ops[..n];
      WrittenAlike(ops[..n], key, reasoning);
    }
  }

  /** A batch of writes leaves every other row alone, unless it is evicted. */
  lemma PutsKeepOthers(env: Env, table: Table, ops: seq<Op>, key: Key)
    requires OnlyPuts(ops) && forall op | op in ops :: op.key != key
    ensures var rows := ApplyAll(env, table, ops).rows;
      && (key in rows ==> key in table.rows && rows[key] == table.rows[key])
      && (NoEviction(env) && key in table.rows ==> key in rows)
  {
    NotWritten(ops, key);
    RowIsLastWrite(env, table, ops, key);
  }

  /** A written key holds the batch's reasoning afterwards, unless it is evicted. */
  lemma PutsAreFound(env: Env, table: Table, ops: seq<Op>, key: Key, reasoning: string)
    requires OnlyPuts(ops) && forall op | op in ops :: op.reasoning == reasoning
    requires exists op :: op in ops && op.key == key
    ensures var rows := ApplyAll(env, table, ops).rows;
      && (key in rows ==> rows[key].reasoning == reasoning)
      && (NoEviction(env) ==> key in rows)
  {
    WrittenAlike(ops, key, reasoning);
    RowIsLastWrite(env, table, ops, key);
  }

  lemma StoreOpsContents(message: Message, scope: Scope, namespace: Option<Namespace>, prior: seq<Message>)
    requires message.role == Assistant && message.reasoning.Some?
    ensures var ops := StoreOps(message, scope, namespace, prior);
      && OnlyPuts(ops)
      && (forall op | op in ops :: op.reasoning == message.reasoning.value)
      && (forall key :: key in MessageKeys(message, scope, namespace, prior)
                   <==> exists op :: op in ops && op.key == key)
  {
    var keys := UniqueKeys(MessageKeys(message, scope, namespace, prior));
    var ops := StoreOps(message, scope, namespace, prior);
    forall key | key in keys
      ensures exists op :: op in ops && op.key == key
    {
      var i :| 0 <= i < |keys| && keys[i] == key;
      assert ops[i] in ops;
    }
  }
}
