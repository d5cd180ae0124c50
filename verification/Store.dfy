/** The reasoning store: an upserting table, pruned by age and by row count after every write. */
module ReasoningStore {
  import opened Messages
  import opened Keys

  const NANOSECONDS := 1_000_000_000

  /** `at` is the write time in nanoseconds. */
  datatype Row = Row(reasoning: string, at: int)

  /** Limits of 0 are off. `clock(n)` is what the n-th reading of the system clock returns. */
  datatype Env = Env(maxAge: nat, maxRows: nat, clock: nat -> int)

  /** The table with the number of clock readings taken so far. */
  datatype Table = Table(rows: map<Key, Row>, ticks: nat)

  /** Rows written strictly before the cutoff are too old; it is computed in whole seconds. */
  function Cutoff(env: Env, now: int): int {
    (now / NANOSECONDS - env.maxAge) * NANOSECONDS
  }

  /** The keys written strictly later than `key`. */
  function Later(rows: map<Key, Row>, key: Key): set<Key>
    requires key in rows
  {
    set k | k in rows && rows[k].at > rows[key].at
  }

  function DropOld(rows: map<Key, Row>, cutoff: int): map<Key, Row> {
    map k | k in rows && rows[k].at >= cutoff :: rows[k]
  }

  /** The `limit` most recently written rows. */
  function KeepNewest(rows: map<Key, Row>, limit: nat): map<Key, Row> {
    map k | k in rows && |Later(rows, k)| < limit :: rows[k]
  }

  function PruneRows(env: Env, rows: map<Key, Row>, now: int): map<Key, Row> {
    var young := if env.maxAge > 0 then DropOld(rows, Cutoff(env, now)) else rows;
    if env.maxRows > 0 then KeepNewest(young, env.maxRows) else young
  }

  /** With an age limit alone, in nanoseconds: a row of at most the allowed age survives a prune, one that is a
      second older does not, and in between the whole second decides. */
  lemma AgeDecides(env: Env, rows: map<Key, Row>, now: int, key: Key)
    requires env.maxAge > 0 && env.maxRows == 0 && key in rows
    ensures now - rows[key].at <= env.maxAge * 1_000_000_000 ==> key in PruneRows(env, rows, now)
    ensures now - rows[key].at >= (env.maxAge + 1) * 1_000_000_000 ==> key !in PruneRows(env, rows, now)
    ensures key in PruneRows(env, rows, now)
       <==> now - now % 1_000_000_000 - rows[key].at <= env.maxAge * 1_000_000_000
  {
  }

  // ----- Locked operations -----

  datatype Op = Put(key: Key, reasoning: string) | Prune | Clear

  function Apply(env: Env, table: Table, op: Op): Table {
    match op
    case Put(key, reasoning) =>
      var written := table.rows[key := Row(reasoning, env.clock(table.ticks))];
      Table(PruneRows(env, written, env.clock(table.ticks + 1)), table.ticks + 2)
    case Prune =>
      Table(PruneRows(env, table.rows, env.clock(table.ticks)), table.ticks + 1)
    case Clear =>
      Table(map[], table.ticks)
  }

  function ApplyAll(env: Env, table: Table, ops: seq<Op>): Table {
    if ops == [] then table
    else Apply(env, ApplyAll(env, table, ops[..|ops| - 1]), ops[|ops| - 1])
  }

  lemma {:induction false} ApplyAllConcat(env: Env, table: Table, a: seq<Op>, b: seq<Op>)
    ensures ApplyAll(env, table, a + b) == ApplyAll(env, ApplyAll(env, table, a), b)
  {
    if b == [] {
      assert a + b == a;
    } else {
      assert (a + b)[..|a + b| - 1] == a + b[..|b| - 1];
      ApplyAllConcat(env, table, a, b[..|b| - 1]);
    }
  }

  function Puts(keys: seq<Key>, reasoning: string): (r: seq<Op>)
    ensures |r| == |keys|
    ensures forall i | 0 <= i < |r| :: r[i] == Put(keys[i], reasoning)
  {
    seq(|keys|, i requires 0 <= i < |keys| => Put(keys[i], reasoning))
  }

  // ----- Recording, lookup and backfill -----

  /** The writes of StoreAssistantMessage. */
  function StoreOps(message: Message, scope: Scope, namespace: Option<Namespace>, prior: seq<Message>): seq<Op> {
    if message.role == Assistant && message.reasoning.Some?
    then Puts(UniqueKeys(MessageKeys(message, scope, namespace, prior)), message.reasoning.value)
    else []
  }

  /** The first hit in priority order. */
  function FirstHit(rows: map<Key, Row>, keys: seq<Key>): (r: Option<string>)
    ensures r.None? <==> forall k | k in keys :: k !in rows
  {
    if keys == [] then None
    else if keys[0] in rows then Some(rows[keys[0]].reasoning)
    else FirstHit(rows, keys[1..])
  }

  function Lookup(table: Table, message: Message, scope: Scope, namespace: Option<Namespace>, prior: seq<Message>)
    : Option<string>
  {
    FirstHit(table.rows, MessageKeys(message, scope, namespace, prior))
  }

  /** The writes of BackfillPortableAliases: portable keys even when there are no prior messages. */
  function BackfillOps(message: Message, reasoning: string, namespace: Option<Namespace>, prior: seq<Message>)
    : seq<Op>
  {
    Puts(UniqueKeys(PortableKeys(message, namespace, prior)), reasoning)
  }

  class Store {
    const env: Env
    var rows: map<Key, Row>
    var ticks: nat

    function State(): Table
      reads this
    {
      Table(rows, ticks)
    }

    /** Opening a fresh database prunes it once. */
    constructor (env: Env)
      ensures this.env == env
      ensures State() == Apply(env, Table(map[], 0), Prune)
    {
      this.env := env;
      this.rows := PruneRows(env, map[], env.clock(0));
      this.ticks := 1;
    }

    method PruneLocked()
      modifies this
      ensures State() == Apply(env, old(State()), Prune)
      ensures forall k | k in rows :: k in old(rows) && rows[k] == old(rows[k])
      ensures env.maxAge > 0 && env.maxRows == 0 ==> forall k | k in old(rows) ::
        var age := env.clock(old(ticks)) - old(rows[k].at);
        && (age <= env.maxAge * 1_000_000_000 ==> k in rows)
        && (age >= (env.maxAge + 1) * 1_000_000_000 ==> k !in rows)
    {
      var now := env.clock(ticks);
      ghost var before := rows;
      if env.maxAge > 0 {
        rows := DropOld(rows, Cutoff(env, now));
      }
      if env.maxRows > 0 {
        rows := KeepNewest(rows, env.maxRows);
      }
      ticks := ticks + 1;
      if env.maxAge > 0 && env.maxRows == 0 {
        forall k | k in before
          ensures now - before[k].at <= env.maxAge * 1_000_000_000 ==> k in rows
          ensures now - before[k].at >= (env.maxAge + 1) * 1_000_000_000 ==> k !in rows
        {
          AgeDecides(env, before, now, k);
        }
      }
    }

    method Put(key: Key, reasoning: string)
      modifies this
      ensures State() == Apply(env, old(State()), Op.Put(key, reasoning))
    {
      rows := rows[key := Row(reasoning, env.clock(ticks))];
      ticks := ticks + 1;
      PruneLocked();
    }

    method Get(key: Key) returns (reasoning: Option<string>)
      ensures reasoning == if key in rows then Some(rows[key].reasoning) else None
    {
      if key in rows {
        reasoning := Some(rows[key].reasoning);
      } else {
        reasoning := None;
      }
    }

    method Clear() returns (count: nat)
      modifies this
      ensures State() == Apply(env, old(State()), Op.Clear)
      ensures count == |old(rows)|
    {
      count := |rows|;
      rows := map[];
    }

    method PutAll(keys: seq<Key>, reasoning: string)
      modifies this
      ensures State() == ApplyAll(env, old(State()), Puts(keys, reasoning))
    {
      for i := 0 to |keys|
        invariant State() == ApplyAll(env, old(State()), Puts(keys, reasoning)[..i])
      {
        Put(keys[i], reasoning);
        assert Puts(keys, reasoning)[..i + 1][..i] == Puts(keys, reasoning)[..i];
      }
      assert Puts(keys, reasoning)[..|keys|] == Puts(keys, reasoning);
    }

    method StoreAssistantMessage(message: Message, scope: Scope, namespace: Option<Namespace>, prior: seq<Message>)
      returns (count: nat)
      modifies this
      ensures State() == ApplyAll(env, old(State()), StoreOps(message, scope, namespace, prior))
      ensures count == |StoreOps(message, scope, namespace, prior)|
      ensures count > 0 <==> message.role == Assistant && message.reasoning.Some?
    {
      if message.role != Assistant || message.reasoning.None? {
        return 0;
      }
      var keys := ScopedReasoningKeys(message, scope);
      if prior != [] {
        var portable := PortableReasoningKeys(message, namespace, prior);
        keys := keys + portable;
      }
      assert keys == MessageKeys(message, scope, namespace, prior);
      keys := UniqueKeysLoop(keys);
      PutAll(keys, message.reasoning.value);
      count := |keys|;
    }

    method LookupForMessage(message: Message, scope: Scope, namespace: Option<Namespace>, prior: seq<Message>)
      returns (reasoning: Option<string>)
      ensures reasoning == Lookup(State(), message, scope, namespace, prior)
    {
      var keys := ScopedReasoningKeys(message, scope);
      if prior != [] {
        var portable := PortableReasoningKeys(message, namespace, prior);
        keys := keys + portable;
      }
      assert keys == MessageKeys(message, scope, namespace, prior);
      reasoning := GetFirst(keys);
    }

    method GetFirst(keys: seq<Key>) returns (reasoning: Option<string>)
      ensures reasoning == FirstHit(rows, keys)
    {
      for i := 0 to |keys|
        invariant FirstHit(rows, keys) == FirstHit(rows, keys[i..])
      {
        var hit := Get(keys[i]);
        if hit.Some? {
          return hit;
        }
      }
      return None;
    }

    method BackfillPortableAliases(message: Message, reasoning: string, namespace: Option<Namespace>,
                                   prior: seq<Message>)
      returns (count: nat)
      modifies this
      ensures State() == ApplyAll(env, old(State()), BackfillOps(message, reasoning, namespace, prior))
      ensures count == |BackfillOps(message, reasoning, namespace, prior)|
    {
      var keys := PortableReasoningKeys(message, namespace, prior);
      if keys == [] {
        return 0;
      }
      keys := UniqueKeysLoop(keys);
      PutAll(keys, reasoning);
      count := |keys|;
    }
  }

  // ----- What a lookup sees -----

  lemma {:induction false} SomeHit(rows: map<Key, Row>, keys: seq<Key>, key: Key)
    requires key in keys && key in rows
    ensures FirstHit(rows, keys).Some?
  {
    if keys[0] != key {
      SomeHit(rows, keys[1..], key);
    }
  }

  /** A message is found when the store has a row for any one of its tool-call ids, under the scope or
      under the turn. */
  lemma FoundByCallId(table: Table, message: Message, scope: Scope, namespace: Option<Namespace>, prior: seq<Message>,
                      i: nat)
    requires i < |message.toolCalls| && Printed(message.toolCalls[i].id) != ""
    requires var id := CallId(Printed(message.toolCalls[i].id));
      || Scoped(scope, id) in table.rows
      || (namespace.Some? && prior != [] && Portable(namespace.value, TurnContext(prior), id) in table.rows)
    ensures Lookup(table, message, scope, namespace, prior).Some?
  {
    var id, keys := CallId(Printed(message.toolCalls[i].id)), MessageKeys(message, scope, namespace, prior);
    CallIdIsKey(message, scope, namespace, prior, i);
    SomeHit(table.rows, keys, if Scoped(scope, id) in table.rows then Scoped(scope, id)
                              else Portable(namespace.value, TurnContext(prior), id));
  }

  /** A hit on an earlier key hides every later one. */
  lemma {:induction false} FirstHitIsFirst(rows: map<Key, Row>, keys: seq<Key>, i: nat)
    requires i < |keys| && keys[i] in rows
    requires forall j | 0 <= j < i :: keys[j] !in rows
    ensures FirstHit(rows, keys) == Some(rows[keys[i]].reasoning)
  {
    if i > 0 {
      FirstHitIsFirst(rows, keys[1..], i - 1);
    }
  }
}
