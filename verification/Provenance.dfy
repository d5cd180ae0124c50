/** Concurrent requests share one store; each Put and Get holds the lock, and nothing longer does.
    Whatever the interleaving, a reasoning found in a namespace was stored in that namespace. */
module Provenance {
  import opened Messages
  import opened Keys
  import opened ReasoningStore

  /** What a request is doing with the store, between two locked steps. */
  datatype Task =
    | Idle
    | Storing(namespace: Namespace, reasoning: string, todo: seq<Key>)
    | Looking(namespace: Namespace, message: Message, prior: seq<Message>, todo: seq<Key>)
    | Found(namespace: Namespace, message: Message, prior: seq<Message>, reasoning: string)
    | NotFound

  /** `stored` remembers every assistant message handed to StoreAssistantMessage, with its namespace. */
  datatype Shared = Shared(table: Table, stored: set<(Namespace, Message)>, tasks: map<nat, Task>)

  function TaskOf(s: Shared, pid: nat): Task {
    if pid in s.tasks then s.tasks[pid] else Idle
  }

  function Set(s: Shared, pid: nat, task: Task): Shared {
    s.(tasks := s.tasks[pid := task])
  }

  // ----- Steps of one request -----

  /** A response begins to be recorded; its scope was computed in the request's namespace. */
  ghost predicate BeginStore(s: Shared, t: Shared, pid: nat) {
    exists namespace, message, context: seq<Message>,
        prior :: StoreBegins(s, t, pid, namespace, message, context, prior)
  }

  ghost predicate StoreBegins(s: Shared, t: Shared, pid: nat, namespace: Namespace, message: Message,
                              context: seq<Message>, prior: seq<Message>) {
    && message.role == Assistant && message.reasoning.Some?
    && t == Set(s, pid, Storing(namespace, message.reasoning.value,
          UniqueKeys(MessageKeys(message, ConversationScope(context, Some(namespace)), Some(namespace), prior))))
        .(stored := s.stored + {(namespace, message)})
  }

  ghost predicate BeginLookup(s: Shared, t: Shared, pid: nat) {
    exists namespace, message, prior :: LookupBegins(s, t, pid, namespace, message, prior)
  }

  ghost predicate LookupBegins(s: Shared, t: Shared, pid: nat, namespace: Namespace, message: Message,
                               prior: seq<Message>) {
    t == Set(s, pid, Looking(namespace, message, prior,
          MessageKeys(message, ConversationScope(prior, Some(namespace)), Some(namespace), prior)))
  }

  /** One locked Put of a recording or of a backfill. */
  ghost predicate PutStep(env: Env, s: Shared, t: Shared, pid: nat) {
    var task := TaskOf(s, pid);
    && task.Storing? && task.todo != []
    && t == Set(s, pid, Storing(task.namespace, task.reasoning, task.todo[1..]))
        .(table := Apply(env, s.table, Put(task.todo[0], task.reasoning)))
  }

  /** One locked Get of a lookup. */
  ghost predicate GetStep(s: Shared, t: Shared, pid: nat) {
    var task := TaskOf(s, pid);
    && task.Looking?
    && t == Set(s, pid,
        if task.todo == [] then NotFound
        else if task.todo[0] in s.table.rows then
          Found(task.namespace, task.message, task.prior, s.table.rows[task.todo[0]].reasoning)
        else Looking(task.namespace, task.message, task.prior, task.todo[1..]))
  }

  /** A hit is written back under the portable keys of the message that was looked up. */
  ghost predicate BeginBackfill(s: Shared, t: Shared, pid: nat) {
    var task := TaskOf(s, pid);
    && task.Found?
    && t == Set(s, pid, Storing(task.namespace, task.reasoning,
          UniqueKeys(PortableKeys(task.message, Some(task.namespace), task.prior))))
  }

  /** Pruning or clearing, by anyone, at any time. */
  ghost predicate Maintenance(env: Env, s: Shared, t: Shared) {
    t == s.(table := Apply(env, s.table, Prune)) || t == s.(table := Apply(env, s.table, Clear))
  }

  ghost predicate Step(env: Env, s: Shared, t: Shared) {
    || Maintenance(env, s, t)
    || exists pid: nat :: StepOf(env, s, t, pid)
  }

  ghost predicate StepOf(env: Env, s: Shared, t: Shared, pid: nat) {
    || BeginStore(s, t, pid)
    || BeginLookup(s, t, pid)
    || PutStep(env, s, t, pid)
    || GetStep(s, t, pid)
    || BeginBackfill(s, t, pid)
  }

  ghost predicate Run(env: Env, states: seq<Shared>) {
    && states != []
    && states[0] == Shared(Table(map[], 0), {}, map[])
    && forall i | 0 <= i < |states| - 1 :: Step(env, states[i], states[i + 1])
  }

  // ----- The invariant -----

  function NamespaceOf(key: Key): Option<Namespace> {
    match key
    case Scoped(scope, _) => scope.namespace
    case Portable(namespace, _, _) => Some(namespace)
  }

  /** Someone stored this reasoning in this namespace. */
  ghost predicate Stored(s: Shared, namespace: Namespace, reasoning: string) {
    exists m :: (namespace, m) in s.stored && m.role == Assistant && m.reasoning == Some(reasoning)
  }

  ghost predicate KeysOf(namespace: Namespace, keys: seq<Key>) {
    forall k | k in keys :: NamespaceOf(k) == Some(namespace)
  }

  ghost predicate RowsHaveOrigin(s: Shared) {
    forall k | k in s.table.rows ::
      NamespaceOf(k).Some? && Stored(s, NamespaceOf(k).value, s.table.rows[k].reasoning)
  }

  ghost predicate TaskHasOrigin(s: Shared, task: Task) {
    match task
    case Storing(namespace, reasoning, todo) => Stored(s, namespace, reasoning) && KeysOf(namespace, todo)
    case Looking(namespace, _, _, todo) => KeysOf(namespace, todo)
    case Found(namespace, _, _, reasoning) => Stored(s, namespace, reasoning)
    case _ => true
  }

  ghost predicate Invariant(s: Shared) {
    RowsHaveOrigin(s) && forall pid | pid in s.tasks :: TaskHasOrigin(s, s.tasks[pid])
  }

  lemma MessageKeysAreLocal(message: Message, context: seq<Message>, namespace: Namespace, prior: seq<Message>)
    ensures KeysOf(namespace, MessageKeys(message, ConversationScope(context, Some(namespace)), Some(namespace), prior))
    ensures KeysOf(namespace, PortableKeys(message, Some(namespace), prior))
  {
  }

  lemma PruningKeepsRows(env: Env, rows: map<Key, Row>, now: int)
    ensures forall k | k in PruneRows(env, rows, now) :: k in rows && PruneRows(env, rows, now)[k] == rows[k]
  {
  }

  lemma StoredGrows(s: Shared, t: Shared, namespace: Namespace, reasoning: string)
    requires Stored(s, namespace, reasoning) && s.stored <= t.stored
    ensures Stored(t, namespace, reasoning)
  {
    var m :| (namespace, m) in s.stored && m.role == Assistant && m.reasoning == Some(reasoning);
    assert (namespace, m) in t.stored;
  }

  /** Changing one task and growing the record keeps everyone else's origin. */
  lemma OthersKeepOrigin(s: Shared, t: Shared, pid: nat)
    requires Invariant(s) && s.stored <= t.stored
    requires t.tasks == s.tasks[pid := TaskOf(t, pid)] && TaskHasOrigin(t, TaskOf(t, pid))
    ensures forall p | p in t.tasks :: TaskHasOrigin(t, t.tasks[p])
  {
    forall p | p in t.tasks
      ensures TaskHasOrigin(t, t.tasks[p])
    {
      if p != pid && (t.tasks[p].Storing? || t.tasks[p].Found?) {
        StoredGrows(s, t, t.tasks[p].namespace, t.tasks[p].reasoning);
      }
    }
  }

  lemma PutKeepsInvariant(env: Env, s: Shared, t: Shared, pid: nat)
    requires Invariant(s) && PutStep(env, s, t, pid)
    ensures Invariant(t)
  {
    var task := TaskOf(s, pid);
    assert task == s.tasks[pid] && TaskHasOrigin(s, task);
    assert task.todo[0] in task.todo;
    PruningKeepsRows(env, s.table.rows[task.todo[0] := Row(task.reasoning, env.clock(s.table.ticks))],
                     env.clock(s.table.ticks + 1));
    OthersKeepOrigin(s, t, pid);
  }

  lemma StoreKeepsInvariant(s: Shared, t: Shared, pid: nat)
    requires Invariant(s) && BeginStore(s, t, pid)
    ensures Invariant(t)
  {
    var namespace, message, context: seq<Message>, prior :| StoreBegins(s, t, pid, namespace, message, context, prior);
    MessageKeysAreLocal(message, context, namespace, prior);
    assert (namespace, message) in t.stored;
    assert Stored(t, namespace, message.reasoning.value);
    OthersKeepOrigin(s, t, pid);
    forall k | k in t.table.rows
      ensures Stored(t, NamespaceOf(k).value, t.table.rows[k].reasoning)
    {
      StoredGrows(s, t, NamespaceOf(k).value, s.table.rows[k].reasoning);
    }
  }

  lemma LookupKeepsInvariant(s: Shared, t: Shared, pid: nat)
    requires Invariant(s) && (BeginLookup(s, t, pid) || GetStep(s, t, pid) || BeginBackfill(s, t, pid))
    ensures Invariant(t)
  {
    if BeginLookup(s, t, pid) {
      var namespace, message, prior :| LookupBegins(s, t, pid, namespace, message, prior);
      MessageKeysAreLocal(message, prior, namespace, prior);
    } else {
      var task := TaskOf(s, pid);
      assert task == s.tasks[pid] && TaskHasOrigin(s, task);
      if task.Found? {
        MessageKeysAreLocal(task.message, task.prior, task.namespace, task.prior);
      } else if task.todo != [] {
        assert task.todo[0] in task.todo;
      }
    }
    OthersKeepOrigin(s, t, pid);
  }

  lemma MaintenanceKeepsInvariant(env: Env, s: Shared, t: Shared)
    requires Invariant(s) && Maintenance(env, s, t)
    ensures Invariant(t)
  {
    PruningKeepsRows(env, s.table.rows, env.clock(s.table.ticks));
  }

  lemma StepKeepsInvariant(env: Env, s: Shared, t: Shared)
    requires Invariant(s) && Step(env, s, t)
    ensures Invariant(t)
  {
    if Maintenance(env, s, t) {
      MaintenanceKeepsInvariant(env, s, t);
    } else {
      var pid: nat :| StepOf(env, s, t, pid);
      if BeginStore(s, t, pid) {
        StoreKeepsInvariant(s, t, pid);
      } else if PutStep(env, s, t, pid) {
        PutKeepsInvariant(env, s, t, pid);
      } else {
        LookupKeepsInvariant(s, t, pid);
      }
    }
  }

  lemma {:induction false} RunKeepsInvariant(env: Env, states: seq<Shared>, i: nat)
    requires Run(env, states) && i < |states|
    ensures Invariant(states[i])
  {
    if i > 0 {
      RunKeepsInvariant(env, states, i - 1);
      assert Step(env, states[i - 1], states[i - 1 + 1]);
      StepKeepsInvariant(env, states[i - 1], states[i]);
    }
  }

  /** Namespace isolation: in every run of any number of requests, interleaved step by step in any
      way, a lookup in a namespace only ever finds the reasoning of an assistant message that some
      request stored in that same namespace, however often it was copied by backfills in between. */
  lemma FoundWasStoredInNamespace(env: Env, states: seq<Shared>, i: nat, pid: nat)
    requires Run(env, states) && i < |states|
    requires pid in states[i].tasks && states[i].tasks[pid].Found?
    ensures var found := states[i].tasks[pid];
      exists m :: (found.namespace, m) in states[i].stored && m.role == Assistant && m.reasoning
          == Some(found.reasoning)
  {
    RunKeepsInvariant(env, states, i);
    assert TaskHasOrigin(states[i], states[i].tasks[pid]);
  }

  // ----- The store's operations are runs of steps -----

  /** Steps of one request with nobody in between. */
  ghost predicate Solo(env: Env, states: seq<Shared>, pid: nat) {
    states != [] && forall i | 0 <= i < |states| - 1 :: StepOf(env, states[i], states[i + 1], pid)
  }

  function Last(states: seq<Shared>): Shared
    requires states != []
  {
    states[|states| - 1]
  }

  lemma SoloCons(env: Env, s: Shared, states: seq<Shared>, pid: nat)
    requires Solo(env, states, pid) && StepOf(env, s, states[0], pid)
    ensures Solo(env, [s] + states, pid) && Last([s] + states) == Last(states)
  {
    hide StepOf;
  }

  /** Writing a list of keys one by one is the batch of writes. */
  lemma {:induction false} PutsRun(env: Env, s: Shared, pid: nat, namespace: Namespace, reasoning: string,
                                   todo: seq<Key>)
    returns (states: seq<Shared>)
    requires pid in s.tasks && s.tasks[pid] == Storing(namespace, reasoning, todo)
    ensures Solo(env, states, pid) && states[0] == s
    ensures Last(states)
         == Set(s, pid, Storing(namespace, reasoning, [])).(table := ApplyAll(env, s.table, Puts(todo, reasoning)))
    decreases |todo|
  {
    if todo == [] {
      assert Puts(todo, reasoning) == [];
      assert s.tasks[pid := Storing(namespace, reasoning, [])] == s.tasks;
      states := [s];
    } else {
      var op := Put(todo[0], reasoning);
      var t := Set(s, pid, Storing(namespace, reasoning, todo[1..])).(table := Apply(env, s.table, op));
      assert PutStep(env, s, t, pid);
      var rest := PutsRun(env, t, pid, namespace, reasoning, todo[1..]);
      SoloCons(env, s, rest, pid);
      FirstPut(env, s.table, todo, reasoning);
      states := [s] + rest;
    }
  }

  lemma FirstPut(env: Env, table: Table, todo: seq<Key>, reasoning: string)
    requires todo != []
    ensures ApplyAll(env, table, Puts(todo, reasoning))
         == ApplyAll(env, Apply(env, table, Put(todo[0], reasoning)), Puts(todo[1..], reasoning))
  {
    hide Apply;
    var op := Put(todo[0], reasoning);
    assert Puts(todo, reasoning) == [op] + Puts(todo[1..], reasoning);
    ApplyAllConcat(env, table, [op], Puts(todo[1..], reasoning));
    assert [op][..0] == [];
    assert ApplyAll(env, table, [op]) == Apply(env, table, op);
  }

  /** StoreAssistantMessage, undisturbed, is a run of steps that ends in the table its contract gives. */
  lemma StoreIsRun(env: Env, s: Shared, pid: nat, namespace: Namespace, message: Message, context: seq<Message>,
                   prior: seq<Message>)
    returns (states: seq<Shared>)
    requires message.role == Assistant && message.reasoning.Some?
    ensures Solo(env, states, pid) && states[0] == s
    ensures Last(states).table
         == ApplyAll(env, s.table, StoreOps(message, ConversationScope(context, Some(namespace)), Some(namespace),
                                            prior))
    ensures Last(states).stored == s.stored + {(namespace, message)}
  {
    hide MessageKeys, ApplyAll;
    var keys := UniqueKeys(MessageKeys(message, ConversationScope(context, Some(namespace)), Some(namespace), prior));
    var recorded := s.stored + {(namespace, message)};
    var t := Set(s, pid, Storing(namespace, message.reasoning.value, keys)).(stored := recorded);
    assert StoreBegins(s, t, pid, namespace, message, context, prior);
    assert BeginStore(s, t, pid);
    var rest := PutsRun(env, t, pid, namespace, message.reasoning.value, keys);
    SoloCons(env, s, rest, pid);
    states := [s] + rest;
  }

  lemma {:induction false} GetsRun(env: Env, s: Shared, pid: nat, namespace: Namespace, message: Message,
                                   prior: seq<Message>,
                                   todo: seq<Key>)
    returns (states: seq<Shared>)
    requires pid in s.tasks && s.tasks[pid] == Looking(namespace, message, prior, todo)
    ensures Solo(env, states, pid) && states[0] == s
    ensures Last(states) == Set(s, pid, Answer(namespace, message, prior, FirstHit(s.table.rows, todo)))
    decreases |todo|
  {
    if todo == [] || todo[0] in s.table.rows {
      var t := Set(s, pid, Answer(namespace, message, prior, FirstHit(s.table.rows, todo)));
      assert GetStep(s, t, pid);
      SoloCons(env, s, [t], pid);
      states := [s, t];
    } else {
      var t := Set(s, pid, Looking(namespace, message, prior, todo[1..]));
      assert GetStep(s, t, pid);
      var rest := GetsRun(env, t, pid, namespace, message, prior, todo[1..]);
      SoloCons(env, s, rest, pid);
      states := [s] + rest;
      assert t.tasks[pid := Answer(namespace, message, prior, FirstHit(s.table.rows, todo))]
          == s.tasks[pid := Answer(namespace, message, prior, FirstHit(s.table.rows, todo))];
    }
  }

  function Answer(namespace: Namespace, message: Message, prior: seq<Message>, hit: Option<string>): Task {
    if hit.None? then NotFound else Found(namespace, message, prior, hit.value)
  }

  /** LookupForMessage, undisturbed, is a run of steps that finds what its contract says and writes nothing. */
  lemma LookupIsRun(env: Env, s: Shared, pid: nat, namespace: Namespace, message: Message, prior: seq<Message>)
    returns (states: seq<Shared>)
    ensures Solo(env, states, pid) && states[0] == s && Last(states).table == s.table
    ensures TaskOf(Last(states), pid)
         == Answer(namespace, message, prior,
                   Lookup(s.table, message, ConversationScope(prior, Some(namespace)), Some(namespace), prior))
  {
    hide MessageKeys;
    var t := Set(s, pid, Looking(namespace, message, prior,
      MessageKeys(message, ConversationScope(prior, Some(namespace)), Some(namespace), prior)));
    assert LookupBegins(s, t, pid, namespace, message, prior);
    assert BeginLookup(s, t, pid);
    var rest := GetsRun(env, t, pid, namespace, message, prior,
      MessageKeys(message, ConversationScope(prior, Some(namespace)), Some(namespace), prior));
    SoloCons(env, s, rest, pid);
    states := [s] + rest;
  }

  /** BackfillPortableAliases after a hit, undisturbed, is a run of steps that ends in the table its contract
      gives. */
  lemma BackfillIsRun(env: Env, s: Shared, pid: nat)
    returns (states: seq<Shared>)
    requires TaskOf(s, pid).Found?
    ensures Solo(env, states, pid) && states[0] == s
    ensures var found := TaskOf(s, pid);
      Last(states).table
      == ApplyAll(env, s.table, BackfillOps(found.message, found.reasoning, Some(found.namespace), found.prior))
  {
    hide PortableKeys, ApplyAll;
    var found := TaskOf(s, pid);
    var keys := UniqueKeys(PortableKeys(found.message, Some(found.namespace), found.prior));
    var t := Set(s, pid, Storing(found.namespace, found.reasoning, keys));
    assert BeginBackfill(s, t, pid);
    var rest := PutsRun(env, t, pid, found.namespace, found.reasoning, keys);
    SoloCons(env, s, rest, pid);
    states := [s] + rest;
  }
}
