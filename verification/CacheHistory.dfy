/** The store agrees with its own history: pruning after every write keeps exactly what one look at
    the whole unpruned history would keep. */
module CacheHistory {
  import opened Messages
  import opened Keys
  import opened ReasoningStore

  const EMPTY := Table(map[], 0)

  ghost predicate Ticking(env: Env) {
    forall i: nat, j: nat | i < j :: env.clock(i) < env.clock(j)
  }

  /** The clock readings that a trace takes. */
  function Ticks(ops: seq<Op>): nat {
    if ops == [] then 0
    else Ticks(ops[..|ops| - 1]) + (match ops[|ops| - 1] case Put(_, _) => 2 case Prune => 1 case Clear => 0)
  }

  /** Every key ever written since the last clearing, with its last write. Nothing is pruned here. */
  function Written(env: Env, ops: seq<Op>): map<Key, Row> {
    if ops == [] then map[] else
    var before := ops[..|ops| - 1];
    match ops[|ops| - 1]
    case Put(key, reasoning) => Written(env, before)[key := Row(reasoning, env.clock(Ticks(before)))]
    case Prune => Written(env, before)
    case Clear => map[]
  }

  /** Among everything ever written, `key` is young enough and among the newest. */
  predicate Survives(env: Env, written: map<Key, Row>, now: int, key: Key)
    requires key in written
  {
    && (env.maxAge > 0 ==> written[key].at >= Cutoff(env, now))
    && (env.maxRows > 0 ==> |Later(written, key)| < env.maxRows)
  }

  function Surviving(env: Env, written: map<Key, Row>, now: int): map<Key, Row> {
    map k | k in written && Survives(env, written, now, k) :: written[k]
  }

  /** The history's own account of the table: one selection at the latest clock reading. */
  function Live(env: Env, ops: seq<Op>): map<Key, Row> {
    Surviving(env, Written(env, ops), env.clock(if Ticks(ops) == 0 then 0 else Ticks(ops) - 1))
  }

  /** `rows` is a top part of `written` that has lost no row still allowed at time `now`. */
  ghost predicate TopPart(env: Env, rows: map<Key, Row>, written: map<Key, Row>, now: int) {
    && (forall k | k in rows :: k in written && rows[k] == written[k])
    && (forall k | k in written && k !in rows :: !Survives(env, written, now, k))
    && (forall j, i | j in rows && i in written && written[i].at > written[j].at :: i in rows)
  }

  lemma PruningATopPart(env: Env, rows: map<Key, Row>, written: map<Key, Row>, now: int)
    requires TopPart(env, rows, written, now)
    ensures PruneRows(env, rows, now) == Surviving(env, written, now)
  {
    var young := if env.maxAge > 0 then DropOld(rows, Cutoff(env, now)) else rows;
    forall j | j in young
      ensures Later(young, j) == Later(written, j)
    {
    }
  }

  lemma SubsetSize<T>(a: set<T>, b: set<T>)
    requires a <= b
    ensures |a| <= |b|
  {
    assert b == a + (b - a);
  }

  /** Surviving rows stay a top part when time passes. */
  lemma SurvivingIsTopPart(env: Env, written: map<Key, Row>, before: int, now: int)
    requires before <= now
    ensures TopPart(env, Surviving(env, written, before), written, now)
  {
    var rows := Surviving(env, written, before);
    forall j, i | j in rows && i in written && written[i].at > written[j].at
      ensures i in rows
    {
      SubsetSize(Later(written, i), Later(written, j));
    }
  }

  /** Writing the newest row preserves a top part. */
  lemma WritingPreservesTopPart(env: Env, rows: map<Key, Row>, written: map<Key, Row>, now: int, key: Key, row: Row)
    requires TopPart(env, rows, written, now)
    requires forall k | k in written :: written[k].at < row.at
    ensures TopPart(env, rows[key := row], written[key := row], now)
  {
    var written' := written[key := row];
    forall k | k in written' && k !in rows[key := row]
      ensures !Survives(env, written', now, k)
    {
      SubsetSize(Later(written, k), Later(written', k));
    }
  }

  lemma {:induction false} WrittenInThePast(env: Env, ops: seq<Op>)
    requires Ticking(env)
    ensures forall k | k in Written(env, ops) :: Written(env, ops)[k].at < env.clock(Ticks(ops))
    ensures Ticks(ops) == 0 ==> Written(env, ops) == map[]
  {
    if ops != [] {
      var before := ops[..|ops| - 1];
      WrittenInThePast(env, before);
      assert env.clock(Ticks(before)) < env.clock(Ticks(before) + 1) < env.clock(Ticks(before) + 2);
    }
  }

  lemma {:induction false} TicksOfTable(env: Env, ops: seq<Op>)
    ensures ApplyAll(env, EMPTY, ops).ticks == Ticks(ops)
  {
    if ops != [] {
      TicksOfTable(env, ops[..|ops| - 1]);
    }
  }

  /** The table after any trace is what the history's account says. */
  lemma {:induction false} CacheAgreesWithHistory(env: Env, ops: seq<Op>)
    requires Ticking(env)
    ensures ApplyAll(env, EMPTY, ops).rows == Live(env, ops)
  {
    hide PruneRows, Surviving, Ticking, Written;
    if ops == [] {
      NothingLive(env);
    } else {
      var n := |ops| - 1;
      CacheAgreesWithHistory(env, ops[..n]);
      TicksOfTable(env, ops[..n]);
      assert ops == ops[..n] + [ops[n]];
      match ops[n]
      case Put(key, reasoning) => PutAgrees(env, ops[..n], key, reasoning);
      case Prune => PruneAgrees(env, ops[..n]);
      case Clear => ClearAgrees(env, ops[..n]);
    }
  }

  lemma NothingLive(env: Env)
    ensures Live(env, []) == map[] && ApplyAll(env, EMPTY, []).rows == map[]
  {
  }

  /** The time of the last clock reading in a trace, at or before the next one. */
  lemma LastReading(env: Env, n: nat)
    requires Ticking(env)
    ensures env.clock(if n == 0 then 0 else n - 1) <= env.clock(n) < env.clock(n + 1)
  {
  }

  lemma PutAgrees(env: Env, before: seq<Op>, key: Key, reasoning: string)
    requires Ticking(env)
    ensures var n := Ticks(before);
      PruneRows(env, Live(env, before)[key := Row(reasoning, env.clock(n))], env.clock(n + 1))
      == Live(env, before + [Put(key, reasoning)])
  {
    hide PruneRows, Surviving, Ticking, TopPart, Live;
    var n, written, row := Ticks(before), Written(env, before), Row(reasoning, env.clock(Ticks(before)));
    LiveAfterPut(env, before, key, reasoning);
    LastReading(env, n);
    WrittenInThePast(env, before);
    SurvivingIsTopPart(env, written, env.clock(if n == 0 then 0 else n - 1), env.clock(n + 1));
    WritingPreservesTopPart(env, Live(env, before), written, env.clock(n + 1), key, row);
    PruningATopPart(env, Live(env, before)[key := row], written[key := row], env.clock(n + 1));
  }

  lemma LiveAfterPut(env: Env, before: seq<Op>, key: Key, reasoning: string)
    ensures var n, written := Ticks(before), Written(env, before);
      && Live(env, before) == Surviving(env, written, env.clock(if n == 0 then 0 else n - 1))
      && Live(env, before + [Put(key, reasoning)])
         == Surviving(env, written[key := Row(reasoning, env.clock(n))], env.clock(n + 1))
  {
    hide Surviving;
    assert (before + [Put(key, reasoning)])[..|before|] == before;
  }

  lemma PruneAgrees(env: Env, before: seq<Op>)
    requires Ticking(env)
    ensures PruneRows(env, Live(env, before), env.clock(Ticks(before))) == Live(env, before + [Prune])
  {
    hide PruneRows, Surviving, Ticking, TopPart;
    var n := Ticks(before);
    assert (before + [Prune])[..|before|] == before;
    LastReading(env, n);
    SurvivingIsTopPart(env, Written(env, before), env.clock(if n == 0 then 0 else n - 1), env.clock(n));
    PruningATopPart(env, Live(env, before), Written(env, before), env.clock(n));
  }

  lemma ClearAgrees(env: Env, before: seq<Op>)
    ensures Live(env, before + [Clear]) == map[]
  {
    assert (before + [Clear])[..|before|] == before;
  }

  /** What Get returns after any trace. */
  lemma GetAfterTrace(env: Env, ops: seq<Op>, key: Key)
    requires Ticking(env)
    ensures FirstHit(ApplyAll(env, EMPTY, ops).rows, [key])
         == if key in Live(env, ops) then Some(Written(env, ops)[key].reasoning) else None
  {
    CacheAgreesWithHistory(env, ops);
  }

  lemma {:induction false} WriteTimesDiffer(env: Env, ops: seq<Op>)
    requires Ticking(env)
    ensures forall j, k | j in Written(env, ops) && k in Written(env, ops) && j != k ::
      Written(env, ops)[j].at != Written(env, ops)[k].at
  {
    if ops != [] {
      WriteTimesDiffer(env, ops[..|ops| - 1]);
      WrittenInThePast(env, ops[..|ops| - 1]);
    }
  }

  lemma Oldest(rows: map<Key, Row>) returns (key: Key)
    requires rows != map[]
    ensures key in rows && forall k | k in rows :: rows[key].at <= rows[k].at
  {
    key :| key in rows;
    var seen := {key};
    while seen != rows.Keys
      invariant key in seen && seen <= rows.Keys
      invariant forall k | k in seen :: rows[key].at <= rows[k].at
      decreases rows.Keys - seen
    {
      assert exists k :: k in rows.Keys && k !in seen;
      var next :| next in rows.Keys && next !in seen;
      if rows[next].at < rows[key].at {
        key := next;
      }
      seen := seen + {next};
    }
  }

  /** The row limit holds after every trace. */
  lemma RowLimitHolds(env: Env, ops: seq<Op>)
    requires Ticking(env) && env.maxRows > 0
    ensures |ApplyAll(env, EMPTY, ops).rows| <= env.maxRows
  {
    CacheAgreesWithHistory(env, ops);
    WriteTimesDiffer(env, ops);
    var rows := Live(env, ops);
    if rows != map[] {
      var oldest := Oldest(rows);
      assert rows.Keys - {oldest} <= Later(Written(env, ops), oldest);
      SubsetSize(rows.Keys - {oldest}, Later(Written(env, ops), oldest));
    }
  }
}
