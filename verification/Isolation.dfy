/** Requests of different clients do not see each other: the namespace of a request tells everything that sets
    it apart, and what happens in one namespace cannot show in another. */
module Isolation {
  import opened Messages
  import opened JsonCanonical
  import opened Keys
  import opened ReasoningStore
  import opened Normalize
  import opened Recovery
  import opened Prepare
  import opened Recording
  import opened Provenance
  import Session

  // ----- What a namespace tells -----

  /** The texts and names of the client's system messages. */
  function SystemTexts(raw: seq<Message>): seq<(string, Option<string>)> {
    if raw == [] then [] else
    var last := raw[|raw| - 1];
    SystemTexts(raw[..|raw| - 1])
    + if last.role == System then [(if last.content == None then "" else last.content.value, last.name)] else []
  }

  /** Without an explicit choice, tools are chosen automatically if there are any. */
  function ChosenTools(settings: Settings): Json {
    match settings.toolChoice
    case Some(choice) => choice
    case None => if settings.tools == [] then Text("none") else Text("auto")
  }

  /** Two requests that share their cached reasoning. */
  ghost predicate SameClient(s: Settings, raw: seq<Message>, t: Settings, raw': seq<Message>) {
    && s.baseUrl == t.baseUrl && s.model == t.model && s.thinking == t.thinking
    && s.authorization == t.authorization && s.userId == t.userId
    && (if s.thinking then s.effort == t.effort else s.requestEffort == t.requestEffort)
    && s.tools == t.tools && ChosenTools(s) == ChosenTools(t)
    && SystemTexts(raw) == SystemTexts(raw')
  }

  function SystemEntry(text: (string, Option<string>)): Message {
    Message(System, Some(text.0), text.1, None, None, [], None)
  }

  function SystemEntries(texts: seq<(string, Option<string>)>): (r: seq<Message>)
    ensures |r| == |texts| && forall i | 0 <= i < |r| :: r[i] == SystemEntry(texts[i])
  {
    seq(|texts|, i requires 0 <= i < |texts| => SystemEntry(texts[i]))
  }

  lemma EntriesAreDistinct(a: seq<(string, Option<string>)>, b: seq<(string, Option<string>)>)
    requires SystemEntries(a) == SystemEntries(b)
    ensures a == b
  {
    assert |a| == |SystemEntries(a)| == |b|;
    forall i | 0 <= i < |a|
      ensures a[i] == b[i]
    {
      assert SystemEntries(a)[i] == SystemEntries(b)[i];
    }
  }

  /** The system messages of a normalised history are those of the client. */
  lemma {:induction false} SystemsOfNormalised(raw: seq<Message>, policy: Policy)
    ensures SystemMessages(NormalizeAll(NoStore, raw, None, policy).messages) == SystemEntries(SystemTexts(raw))
  {
    hide NormalizeOne, SystemMessages;
    if raw == [] {
      NoSystems();
    } else {
      var n := |raw| - 1;
      SystemsOfNormalised(raw[..n], policy);
      var before := NormalizeAll(NoStore, raw[..n], None, policy);
      var one := NormalizeOne(before.backend, raw[n], None, policy, before.messages);
      SystemMessagesConcat(before.messages, [one.message]);
      SystemOfOne(before.backend, raw[n], policy, before.messages);
      assert SystemEntries(SystemTexts(raw))
          == SystemEntries(SystemTexts(raw[..n])) + SystemEntries(SystemTexts([raw[n]])) by { LastSystem(raw); }
    }
  }

  lemma LastSystem(raw: seq<Message>)
    requires raw != []
    ensures SystemTexts(raw) == SystemTexts(raw[..|raw| - 1]) + SystemTexts([raw[|raw| - 1]])
  {
    assert [raw[|raw| - 1]][..0] == [];
  }

  lemma NoSystems()
    ensures SystemMessages([]) == SystemEntries(SystemTexts([]))
  {
  }

  lemma SystemOfOne(backend: Backend, raw: Message, policy: Policy, prior: seq<Message>)
    ensures SystemMessages([NormalizeOne(backend, raw, None, policy, prior).message])
         == SystemEntries(SystemTexts([raw]))
  {
    hide BackendLookup, NeedsReasoning, Backfilled;
    var message := NormalizeOne(backend, raw, None, policy, prior).message;
    assert [message][1..] == [] && [raw][..0] == [];
    assert raw.role == System <==> message.role == System;
  }

  /** Two requests have one namespace exactly when they agree on address, model, thinking, effort, credentials,
      user, tools, tool choice and system messages. */
  lemma NamespaceIff(a: Backend, s: Settings, raw: seq<Message>, b: Backend, t: Settings, raw': seq<Message>)
    ensures PrepareRequest(a, s, raw).namespace == PrepareRequest(b, t, raw').namespace
       <==> SameClient(s, raw, t, raw')
  {
    hide NormalizeAll, SystemTexts, Repaired, SystemMessages;
    SystemsOfNormalised(raw, Policy(false, s.thinking));
    SystemsOfNormalised(raw', Policy(false, t.thinking));
    if SystemEntries(SystemTexts(raw)) == SystemEntries(SystemTexts(raw')) {
      EntriesAreDistinct(SystemTexts(raw), SystemTexts(raw'));
    }
  }

  /** A request in a run: its settings and its messages. */
  datatype Request = Request(settings: Settings, raw: seq<Message>)

  /** Whatever was stored so far was stored by one of these requests. */
  ghost predicate StoredBy(s: Shared, requests: set<Request>) {
    forall n, m | (n, m) in s.stored :: StoredByOne(n, m, requests)
  }

  ghost predicate StoredByOne(n: Namespace, m: Message, requests: set<Request>) {
    exists r :: r in requests && n == SessionNamespace(r.settings, r.raw)
  }

  /** In every run, whatever the interleaving, what a request finds was stored by a request with the same
      credentials, user, model, address and the rest. */
  lemma FoundWasStoredByClient(env: Env, states: seq<Shared>, i: nat, pid: nat, requests: set<Request>, own: Request)
    requires Run(env, states) && i < |states| && StoredBy(states[i], requests)
    requires pid in states[i].tasks && states[i].tasks[pid].Found?
    requires states[i].tasks[pid].namespace == SessionNamespace(own.settings, own.raw)
    ensures exists r, m ::
      && r in requests && SameClient(own.settings, own.raw, r.settings, r.raw)
      && (SessionNamespace(r.settings, r.raw), m) in states[i].stored
      && m.reasoning == Some(states[i].tasks[pid].reasoning)
  {
    hide CacheNamespace, PreRepair, SameClient, Repaired;
    var found := states[i].tasks[pid];
    FoundWasStoredInNamespace(env, states, i, pid);
    var m :| (found.namespace, m) in states[i].stored && m.role == Assistant && m.reasoning == Some(found.reasoning);
    assert StoredByOne(found.namespace, m, requests);
    var r :| r in requests && found.namespace == SessionNamespace(r.settings, r.raw);
    NamespaceIff(NoStore, own.settings, own.raw, NoStore, r.settings, r.raw);
  }

  // ----- What happens in one namespace cannot show in another -----

  /** The two tables hold the same reasoning for the keys of a namespace. */
  ghost predicate Alike(namespace: Namespace, a: map<Key, Row>, b: map<Key, Row>) {
    forall k: Key | NamespaceOf(k) == Some(namespace) ::
      (k in a <==> k in b) && (k in a && k in b ==> a[k].reasoning == b[k].reasoning)
  }

  lemma {:induction false} SameHits(namespace: Namespace, a: map<Key, Row>, b: map<Key, Row>, keys: seq<Key>)
    requires Alike(namespace, a, b) && KeysOf(namespace, keys)
    ensures FirstHit(a, keys) == FirstHit(b, keys)
  {
    if keys != [] {
      assert keys[0] in keys;
      SameHits(namespace, a, b, keys[1..]);
    }
  }

  /** One batch of writes to both tables. */
  lemma SameWrites(namespace: Namespace, env: Env, a: Table, b: Table, ops: seq<Op>)
    requires NoEviction(env) && OnlyPuts(ops) && Alike(namespace, a.rows, b.rows)
    ensures Alike(namespace, ApplyAll(env, a, ops).rows, ApplyAll(env, b, ops).rows)
  {
    hide NoEviction, ApplyAll;
    forall k: Key | NamespaceOf(k) == Some(namespace)
      ensures var x, y := ApplyAll(env, a, ops).rows, ApplyAll(env, b, ops).rows;
        (k in x <==> k in y) && (k in x && k in y ==> x[k].reasoning == y[k].reasoning)
    {
      RowIsLastWrite(env, a, ops, k);
      RowIsLastWrite(env, b, ops, k);
    }
  }

  /** A batch of writes in another namespace. */
  lemma OtherWrites(namespace: Namespace, env: Env, a: Table, ops: seq<Op>)
    requires NoEviction(env) && OnlyPuts(ops)
    requires forall op | op in ops :: NamespaceOf(op.key) != Some(namespace)
    ensures Alike(namespace, a.rows, ApplyAll(env, a, ops).rows)
  {
    hide NoEviction, ApplyAll;
    forall k: Key | NamespaceOf(k) == Some(namespace)
      ensures var y := ApplyAll(env, a, ops).rows;
        (k in a.rows <==> k in y) && (k in a.rows && k in y ==> a.rows[k].reasoning == y[k].reasoning)
    {
      PutsKeepOthers(env, a, ops, k);
    }
  }

  lemma AlikeChain(namespace: Namespace, a: map<Key, Row>, b: map<Key, Row>, c: map<Key, Row>)
    requires Alike(namespace, a, b) && Alike(namespace, b, c)
    ensures Alike(namespace, a, c)
  {
  }

  lemma BackfillOpsArePuts(message: Message, reasoning: string, namespace: Namespace, prior: seq<Message>)
    ensures var ops := BackfillOps(message, reasoning, Some(namespace), prior);
      OnlyPuts(ops) && forall op | op in ops :: NamespaceOf(op.key) == Some(namespace)
  {
    var ops := BackfillOps(message, reasoning, Some(namespace), prior);
    forall op | op in ops
      ensures op.Put? && NamespaceOf(op.key) == Some(namespace)
    {
      assert op.key in UniqueKeys(PortableKeys(message, Some(namespace), prior));
    }
  }

  // ----- One request over two tables -----

  ghost predicate AlikeBackends(namespace: Namespace, env: Env, a: Backend, b: Backend) {
    a.Backed? && b.Backed? && a.env == b.env == env && Alike(namespace, a.table.rows, b.table.rows)
  }

  lemma OneAlike(namespace: Namespace, env: Env, a: Backend, b: Backend, raw: Message, policy: Policy,
                 prior: seq<Message>)
    requires NoEviction(env) && AlikeBackends(namespace, env, a, b)
    ensures var x := NormalizeOne(a, raw, Some(namespace), policy, prior);
      var y := NormalizeOne(b, raw, Some(namespace), policy, prior);
      x.message == y.message && x.outcome == y.outcome && AlikeBackends(namespace, env, x.backend, y.backend)
  {
    hide Shape, FilterFields, NoEviction, NeedsReasoning, MessageKeys, BackfillOps, ApplyAll, Alike, PortableKeys;
    var message := Shape(raw);
    var keys := MessageKeys(message, ConversationScope(prior, Some(namespace)), Some(namespace), prior);
    MessageKeysAreLocal(message, prior, namespace, prior);
    SameHits(namespace, a.table.rows, b.table.rows, keys);
    var restored := BackendLookup(a, message, Some(namespace), prior);
    if restored.Some? {
      BackfillOpsArePuts(message, restored.value, namespace, prior);
      SameWrites(namespace, env, a.table, b.table, BackfillOps(message, restored.value, Some(namespace), prior));
    }
  }

  lemma {:induction false} AllAlike(namespace: Namespace, env: Env, a: Backend, b: Backend, raw: seq<Message>,
                                    policy: Policy)
    requires NoEviction(env) && AlikeBackends(namespace, env, a, b)
    ensures var x := NormalizeAll(a, raw, Some(namespace), policy);
      var y := NormalizeAll(b, raw, Some(namespace), policy);
      x == y.(backend := x.backend) && AlikeBackends(namespace, env, x.backend, y.backend)
  {
    hide NormalizeOne, NoEviction, AlikeBackends;
    if raw != [] {
      var n := |raw| - 1;
      AllAlike(namespace, env, a, b, raw[..n], policy);
      var x := NormalizeAll(a, raw[..n], Some(namespace), policy);
      var y := NormalizeAll(b, raw[..n], Some(namespace), policy);
      OneAlike(namespace, env, x.backend, y.backend, raw[n], policy, x.messages);
    }
  }

  ghost predicate AlikeStates(namespace: Namespace, env: Env, x: LoopState, y: LoopState) {
    && x == y.(history := y.history.(backend := x.history.backend))
    && AlikeBackends(namespace, env, x.history.backend, y.history.backend)
  }

  lemma {:induction false} LoopAlike(namespace: Namespace, env: Env, settings: Settings, x: LoopState, y: LoopState)
    requires NoEviction(env) && AlikeStates(namespace, env, x, y)
    requires MissingAreAssistants(x.history) && MissingAreAssistants(y.history)
    ensures AlikeStates(namespace, env, RepairLoop(x, namespace, settings), RepairLoop(y, namespace, settings))
    decreases AssistantCount(x.history.messages)
  {
    hide NoEviction, AlikeBackends, NormalizeAll, RecoverFromMissing, AssistantCount, MissingAreAssistants;
    if x.history.missing != [] && settings.strategy == Recover {
      LoopProgress(x, namespace, settings);
      LoopProgress(y, namespace, settings);
      var r := RecoverFromMissing(x.history.messages, x.history.missing);
      if r.dropped != 0 {
        AllAlike(namespace, env, x.history.backend, y.history.backend, r.messages, RepairPolicy(settings));
        LoopAlike(namespace, env, settings, LoopStep(x, namespace, settings).state,
                  LoopStep(y, namespace, settings).state);
      }
    }
  }

  /** What is prepared depends on the rows of the request's own namespace alone. */
  lemma PreparedAlike(env: Env, a: Table, b: Table, settings: Settings, raw: seq<Message>)
    requires NoEviction(env) && Alike(SessionNamespace(settings, raw), a.rows, b.rows)
    ensures PrepareRequest(Backed(env, a), settings, raw) == PrepareRequest(Backed(env, b), settings, raw)
    ensures AlikeStates(SessionNamespace(settings, raw), env, Repaired(Backed(env, a), settings, raw),
                        Repaired(Backed(env, b), settings, raw))
  {
    hide NoEviction, Alike, NormalizeAll, RepairLoop, CacheNamespace, PreRepair, MessagesForRepair;
    var namespace := SessionNamespace(settings, raw);
    AllAlike(namespace, env, Backed(env, a), Backed(env, b), StartOf(settings, raw), RepairPolicy(settings));
    LoopAlike(namespace, env, settings, FirstPass(Backed(env, a), settings, raw),
              FirstPass(Backed(env, b), settings, raw));
  }

  // ----- Another client's exchange -----

  lemma OneElsewhere(mine: Namespace, theirs: Namespace, env: Env, table: Table, raw: Message, policy: Policy,
                     prior: seq<Message>)
    requires NoEviction(env) && mine != theirs
    ensures var backend := NormalizeOne(Backed(env, table), raw, Some(theirs), policy, prior).backend;
      AlikeBackends(mine, env, Backed(env, table), backend)
  {
    hide Shape, FilterFields, NoEviction, NeedsReasoning, MessageKeys, BackfillOps, ApplyAll, PortableKeys;
    var message := Shape(raw);
    var restored := BackendLookup(Backed(env, table), message, Some(theirs), prior);
    if restored.Some? {
      BackfillOpsArePuts(message, restored.value, theirs, prior);
      OtherWrites(mine, env, table, BackfillOps(message, restored.value, Some(theirs), prior));
    }
  }

  lemma {:induction false} AllElsewhere(mine: Namespace, theirs: Namespace, env: Env, table: Table,
                                        raw: seq<Message>, policy: Policy)
    requires NoEviction(env) && mine != theirs
    ensures AlikeBackends(mine, env, Backed(env, table), NormalizeAll(Backed(env, table), raw, Some(theirs),
                                                                      policy).backend)
  {
    hide NormalizeOne, NoEviction, Alike;
    if raw == [] {
      AlikeItself(mine, table.rows);
    } else {
      var n := |raw| - 1;
      AllElsewhere(mine, theirs, env, table, raw[..n], policy);
      var before := NormalizeAll(Backed(env, table), raw[..n], Some(theirs), policy);
      OneElsewhere(mine, theirs, env, before.backend.table, raw[n], policy, before.messages);
      AlikeChain(mine, table.rows, before.backend.table.rows,
                 NormalizeOne(before.backend, raw[n], Some(theirs), policy, before.messages).backend.table.rows);
    }
  }

  lemma AlikeItself(namespace: Namespace, rows: map<Key, Row>)
    ensures Alike(namespace, rows, rows)
  {
  }

  lemma {:induction false} LoopElsewhere(mine: Namespace, theirs: Namespace, env: Env, table: Table,
                                         settings: Settings, state: LoopState)
    requires NoEviction(env) && mine != theirs && MissingAreAssistants(state.history)
    requires AlikeBackends(mine, env, Backed(env, table), state.history.backend)
    ensures AlikeBackends(mine, env, Backed(env, table), RepairLoop(state, theirs, settings).history.backend)
    decreases AssistantCount(state.history.messages)
  {
    hide NoEviction, Alike, NormalizeAll, RecoverFromMissing, AssistantCount, MissingAreAssistants;
    if state.history.missing != [] && settings.strategy == Recover {
      LoopProgress(state, theirs, settings);
      var r := RecoverFromMissing(state.history.messages, state.history.missing);
      if r.dropped != 0 {
        AllElsewhere(mine, theirs, env, state.history.backend.table, r.messages, RepairPolicy(settings));
        var next := LoopStep(state, theirs, settings).state;
        AlikeChain(mine, table.rows, state.history.backend.table.rows, next.history.backend.table.rows);
        LoopElsewhere(mine, theirs, env, table, settings, next);
      }
    }
  }

  lemma {:induction false} RecordedElsewhere(choices: seq<Message>, theirs: Namespace, contexts: seq<RecordingContext>)
    requires forall c | c in contexts :: c.scope.namespace == Some(theirs)
    ensures var ops := RecordOps(choices, theirs, contexts);
      OnlyPuts(ops) && forall op | op in ops :: NamespaceOf(op.key) == Some(theirs)
  {
    hide MessageOps;
    if choices != [] {
      RecordedElsewhere(choices[..|choices| - 1], theirs, contexts);
      MessageElsewhere(choices[|choices| - 1], theirs, contexts);
    }
  }

  lemma {:induction false} MessageElsewhere(message: Message, theirs: Namespace, contexts: seq<RecordingContext>)
    requires forall c | c in contexts :: c.scope.namespace == Some(theirs)
    ensures var ops := MessageOps(message, theirs, contexts);
      OnlyPuts(ops) && forall op | op in ops :: NamespaceOf(op.key) == Some(theirs)
  {
    hide StoreOps;
    if contexts != [] {
      var last := contexts[|contexts| - 1];
      assert last in contexts;
      MessageElsewhere(message, theirs, contexts[..|contexts| - 1]);
      StoredElsewhere(message, theirs, last);
    }
  }

  lemma StoredElsewhere(message: Message, theirs: Namespace, context: RecordingContext)
    requires context.scope.namespace == Some(theirs)
    ensures var ops := StoreOps(message, context.scope, Some(theirs), context.messages);
      OnlyPuts(ops) && forall op | op in ops :: NamespaceOf(op.key) == Some(theirs)
  {
    var ops := StoreOps(message, context.scope, Some(theirs), context.messages);
    forall op | op in ops
      ensures op.Put? && NamespaceOf(op.key) == Some(theirs)
    {
      assert op.key in UniqueKeys(MessageKeys(message, context.scope, Some(theirs), context.messages));
      assert op.key in MessageKeys(message, context.scope, Some(theirs), context.messages);
    }
  }

  /** A whole exchange of another client leaves every row of this client's namespace as it was. */
  lemma ExchangeElsewhere(mine: Namespace, env: Env, table: Table, theirs: Settings, raw: seq<Message>,
                          response: Message)
    requires NoEviction(env) && mine != SessionNamespace(theirs, raw)
    ensures Alike(mine, table.rows, Session.AfterRequest(env, table, theirs, raw, response).rows)
  {
    hide NoEviction, Alike, NormalizeAll, RepairLoop, CacheNamespace, PreRepair, MessagesForRepair, RecordOps,
      PrefixContent, ApplyAll;
    var namespace := SessionNamespace(theirs, raw);
    var backend := Backed(env, table);
    AllElsewhere(mine, namespace, env, table, StartOf(theirs, raw), RepairPolicy(theirs));
    LoopElsewhere(mine, namespace, env, table, theirs, FirstPass(backend, theirs, raw));
    var prepared, end := PrepareRequest(backend, theirs, raw), Repaired(backend, theirs, raw).history.backend;
    var ops := RecordOps(PrefixContent([response], prepared.notice), namespace, prepared.contexts);
    RecordedElsewhere(PrefixContent([response], prepared.notice), namespace, prepared.contexts);
    OtherWrites(mine, env, end.table, ops);
    AlikeChain(mine, table.rows, end.table.rows, ApplyAll(env, end.table, ops).rows);
  }

  /** Noninterference: without limits, whatever another client asks and is answered, and whatever is recorded
      of it, this client's next request is prepared exactly as if it had not happened. */
  lemma OthersDoNotShow(env: Env, table: Table, theirs: Settings, raw': seq<Message>, response: Message,
                        mine: Settings, raw: seq<Message>)
    requires NoEviction(env) && !SameClient(mine, raw, theirs, raw')
    ensures PrepareRequest(Backed(env, Session.AfterRequest(env, table, theirs, raw', response)), mine, raw)
         == PrepareRequest(Backed(env, table), mine, raw)
  {
    hide NoEviction, SameClient, Alike, PrepareRequest, Session.AfterRequest, CacheNamespace;
    NamespaceIff(NoStore, mine, raw, NoStore, theirs, raw');
    Session.PreparedNamespace(NoStore, mine, raw);
    Session.PreparedNamespace(NoStore, theirs, raw');
    ExchangeElsewhere(SessionNamespace(mine, raw), env, table, theirs, raw', response);
    PreparedAlike(env, table, Session.AfterRequest(env, table, theirs, raw', response), mine, raw);
  }
}
