/** What the store still holds after any trace, in nanoseconds and rows. */
module Retention {
  import opened Messages
  import opened Keys
  import opened ReasoningStore
  import opened CacheHistory

  /** The latest clock reading of a trace. */
  function LatestReading(env: Env, ops: seq<Op>): int {
    env.clock(if Ticks(ops) == 0 then 0 else Ticks(ops) - 1)
  }

  /** At `now` the write time is at most `maxAge` seconds back, counted from the beginning of the current
      second. */
  predicate Young(maxAge: nat, now: int, at: int) {
    now - now % 1_000_000_000 - at <= maxAge * 1_000_000_000
  }

  lemma CutoffIsAge(env: Env, now: int, at: int)
    ensures at >= Cutoff(env, now) <==> Young(env.maxAge, now, at)
  {
  }

  /** After any trace, a key holds what was last written to it exactly when it was written, is young enough at
      the latest reading, and fewer rows than the limit were written later. */
  lemma RowIsKeptIff(env: Env, ops: seq<Op>, key: Key)
    requires Ticking(env)
    ensures var rows, written := ApplyAll(env, EMPTY, ops).rows, Written(env, ops);
      && (key in rows <==>
            && key in written
            && (env.maxAge > 0 ==> Young(env.maxAge, LatestReading(env, ops), written[key].at))
            && (env.maxRows > 0 ==> |set k | k in written && written[k].at > written[key].at| < env.maxRows))
      && (key in rows ==> rows[key] == written[key])
  {
    hide Written, Ticking, Young, Cutoff;
    CacheAgreesWithHistory(env, ops);
    var written := Written(env, ops);
    if key in written {
      CutoffIsAge(env, LatestReading(env, ops), written[key].at);
      assert Later(written, key) == set k | k in written && written[k].at > written[key].at;
    }
  }

  /** With an age limit alone, after any trace: what was written within the limit is there, and what was written
      a second earlier is not. */
  lemma AgeBounds(env: Env, ops: seq<Op>, key: Key)
    requires Ticking(env) && env.maxAge > 0 && env.maxRows == 0 && key in Written(env, ops)
    ensures var rows, written := ApplyAll(env, EMPTY, ops).rows, Written(env, ops)[key];
      var age := LatestReading(env, ops) - written.at;
      && (age <= env.maxAge * 1_000_000_000 ==> key in rows && rows[key] == written)
      && (age >= (env.maxAge + 1) * 1_000_000_000 ==> key !in rows)
  {
    RowIsKeptIff(env, ops, key);
  }

  lemma {:induction false} NewestOf(written: map<Key, Row>, keys: set<Key>) returns (key: Key)
    requires keys != {} && keys <= written.Keys
    ensures key in keys && forall k | k in keys :: written[k].at <= written[key].at
  {
    var one := PickElement(keys);
    key := one;
    if keys - {one} != {} {
      var other := NewestOf(written, keys - {one});
      key := if written[other].at > written[one].at then other else one;
    }
    forall k | k in keys
      ensures written[k].at <= written[key].at
    {
      assert k == one || k in keys - {one};
    }
  }

  /** When a row is given up to the limit, as many newer ones as the limit allows are kept. */
  lemma LimitIsReached(written: map<Key, Row>, limit: nat, lost: Key)
    requires lost in written && |Later(written, lost)| >= limit
    ensures |set k | k in written && |Later(written, k)| < limit| >= limit
  {
    var kept := set k | k in written && |Later(written, k)| < limit;
    assert lost in written.Keys - kept;
    var newest := NewestOf(written, written.Keys - kept);
    assert Later(written, newest) <= kept;
    SubsetSize(Later(written, newest), kept);
  }

  /** With a row limit alone, after any trace: every row that is there is newer than every written one that is
      not, and no row is given up before the limit is reached. */
  lemma NewestAreKept(env: Env, ops: seq<Op>, lost: Key)
    requires Ticking(env) && env.maxAge == 0 && env.maxRows > 0
    requires lost in Written(env, ops) && lost !in ApplyAll(env, EMPTY, ops).rows
    ensures var rows, written := ApplyAll(env, EMPTY, ops).rows, Written(env, ops);
      && |rows| == env.maxRows
      && forall k | k in rows :: k in written && rows[k] == written[k] && written[k].at > written[lost].at
  {
    hide Ticking, Written;
    var rows, written := ApplyAll(env, EMPTY, ops).rows, Written(env, ops);
    CacheAgreesWithHistory(env, ops);
    WriteTimesDiffer(env, ops);
    forall k | k in rows
      ensures written[k].at > written[lost].at
    {
      if written[k].at < written[lost].at {
        SubsetSize(Later(written, lost), Later(written, k));
      }
    }
    RowLimitHolds(env, ops);
    LimitIsReached(written, env.maxRows, lost);
    assert rows.Keys == set k | k in written && |Later(written, k)| < env.maxRows;
  }
}
