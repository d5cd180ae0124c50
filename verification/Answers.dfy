/** Which turns a repairing pass answers, told from the request and the table before the pass. */
module Answers {
  import opened Messages
  import opened Keys
  import opened ReasoningStore
  import opened Normalize
  import opened Recovery
  import opened Prepare
  import opened Recording
  import opened ReplayContract
  import opened OneShot
  import KeyStability

  /** Turn `p` needs reasoning and does not bring it. */
  predicate Asks(start: seq<Message>, p: nat)
    requires p < |start|
  {
    var message := Shape(start[p]);
    message.role == Assistant && message.reasoning.None? && NeedsReasoning(message, PlainAll(start[..p]))
  }

  /** The keys under which turn `p` is looked up. */
  function KeysAt(start: seq<Message>, namespace: Option<Namespace>, p: nat): seq<Key>
    requires p < |start|
  {
    var prior := PlainAll(start[..p]);
    MessageKeys(Shape(start[p]), ConversationScope(prior, namespace), namespace, prior)
  }

  /** The keys that answering turn `q` adds. */
  function BackfillKeysAt(start: seq<Message>, namespace: Option<Namespace>, q: nat): seq<Key>
    requires q < |start|
  {
    PortableKeys(Shape(start[q]), namespace, PlainAll(start[..q]))
  }

  /** The key is in the table, or an earlier turn that had to be answered adds it. */
  ghost predicate Known(rows: map<Key, Row>, start: seq<Message>, namespace: Option<Namespace>, n: nat, key: Key)
    requires n <= |start|
  {
    key in rows || exists q: nat :: q < n && Asks(start, q) && key in BackfillKeysAt(start, namespace, q)
  }

  ghost predicate Answered(rows: map<Key, Row>, start: seq<Message>, namespace: Option<Namespace>, p: nat)
    requires p < |start|
  {
    exists key :: key in KeysAt(start, namespace, p) && Known(rows, start, namespace, p, key)
  }

  ghost predicate AllAnswered(rows: map<Key, Row>, start: seq<Message>, namespace: Option<Namespace>) {
    forall p: nat | p < |start| && Asks(start, p) :: Answered(rows, start, namespace, p)
  }

  // ----- The pass sees what the request alone determines -----

  lemma SamePortableKeys(message: Message, namespace: Option<Namespace>, a: seq<Message>, b: seq<Message>)
    requires Canonical(a) == Canonical(b)
    ensures PortableKeys(message, namespace, a) == PortableKeys(message, namespace, b)
  {
    KeyStability.TurnOfCanonical(a);
    KeyStability.TurnOfCanonical(b);
  }

  lemma PriorIsPlain(backend: Backend, start: seq<Message>, namespace: Option<Namespace>, p: nat)
    requires p < |start|
    ensures var prior := NormalizeAll(backend, start[..p], namespace, Policy(true, true)).messages;
      && MessageKeys(Shape(start[p]), ConversationScope(prior, namespace), namespace, prior)
          == KeysAt(start, namespace, p)
      && PortableKeys(Shape(start[p]), namespace, prior) == BackfillKeysAt(start, namespace, p)
      && NeedsReasoning(Shape(start[p]), prior) == NeedsReasoning(Shape(start[p]), PlainAll(start[..p]))
  {
    hide NormalizeAll, Shape, MessageKeys, PortableKeys;
    var prior, plain := NormalizeAll(backend, start[..p], namespace, Policy(true, true)).messages, PlainAll(start[..p]);
    KeyStability.CanonicalOfNormalized(backend, start[..p], namespace, Policy(true, true));
    PlainIsItsCanonical(start[..p]);
    KeyStability.KeysOfCanonicalPrior(Shape(start[p]), namespace, prior, plain);
    SamePortableKeys(Shape(start[p]), namespace, prior, plain);
    FollowsToolOfCanonical(prior);
    FollowsToolOfCanonical(plain);
  }

  lemma PlainIsItsCanonical(raw: seq<Message>)
    ensures Canonical(PlainAll(raw)) == PlainAll(raw)
  {
    hide Plain;
    forall i | 0 <= i < |raw|
      ensures Canonical(PlainAll(raw))[i] == PlainAll(raw)[i]
    {
      PlainIsCanonical(raw[i]);
    }
  }

  /** Without limits a backfill adds exactly its keys. */
  lemma BackfillAdds(env: Env, table: Table, message: Message, reasoning: string, namespace: Option<Namespace>,
                     prior: seq<Message>,
                     key: Key)
    requires NoEviction(env)
    ensures key in ApplyAll(env, table, BackfillOps(message, reasoning, namespace, prior)).rows
       <==> key in table.rows || key in PortableKeys(message, namespace, prior)
  {
    hide PortableKeys, ApplyAll, NoEviction;
    var keys := UniqueKeys(PortableKeys(message, namespace, prior));
    var ops := BackfillOps(message, reasoning, namespace, prior);
    RowIsLastWrite(env, table, ops, key);
    if key in keys {
      var i :| 0 <= i < |keys| && keys[i] == key;
      assert ops[i] in ops;
      WrittenAlike(ops, key, reasoning);
    } else {
      NotWritten(ops, key);
    }
  }

  /** One turn of the pass. */
  lemma OneTurn(env: Env, table: Table, start: seq<Message>, namespace: Option<Namespace>, p: nat, before: History)
    requires NoEviction(env) && p < |start|
    requires before == NormalizeAll(Backed(env, table), start[..p], namespace, Policy(true, true))
    requires before.backend.Backed? && before.backend.env == env
    requires forall key :: key in before.backend.table.rows <==> Known(table.rows, start, namespace, p, key)
    ensures var one := NormalizeOne(before.backend, start[p], namespace, Policy(true, true), before.messages);
      && (one.outcome == Missing <==> Asks(start, p) && !Answered(table.rows, start, namespace, p))
      && one.backend.Backed? && one.backend.env == env
      && (one.outcome != Missing ==> forall key :: key in one.backend.table.rows <==>
            key in before.backend.table.rows || (Asks(start, p) && key in BackfillKeysAt(start, namespace, p)))
  {
    hide NormalizeAll, Shape, MessageKeys, PortableKeys, Known, NeedsReasoning, BackfillOps, ApplyAll, NoEviction,
      PlainAll;
    PriorIsPlain(Backed(env, table), start, namespace, p);
    var message, prior := Shape(start[p]), before.messages;
    assert BackendLookup(before.backend, message, namespace, prior).Some?
      <==> Answered(table.rows, start, namespace, p);
    hide Answered, KeysAt, BackfillKeysAt, ConversationScope, Lookup;
    TurnOf(env, before.backend.table, start[p], namespace, prior);
  }

  /** One message of a repairing pass without limits, told from the lookup alone. */
  lemma TurnOf(env: Env, table: Table, raw: Message, namespace: Option<Namespace>, prior: seq<Message>)
    requires NoEviction(env)
    ensures var one := NormalizeOne(Backed(env, table), raw, namespace, Policy(true, true), prior);
      var message := Shape(raw);
      var asks := message.role == Assistant && message.reasoning.None? && NeedsReasoning(message, prior);
      && (one.outcome == Missing <==> asks && BackendLookup(Backed(env, table), message, namespace, prior).None?)
      && one.backend.Backed? && one.backend.env == env
      && (one.outcome != Missing ==> forall key :: key in one.backend.table.rows <==>
            key in table.rows || (asks && key in PortableKeys(message, namespace, prior)))
  {
    hide NoEviction, PortableKeys, MessageKeys, NeedsReasoning, Shape, BackfillOps, ApplyAll;
    var message := Shape(raw);
    var restored := BackendLookup(Backed(env, table), message, namespace, prior);
    if restored.Some? {
      forall key
        ensures key in ApplyAll(env, table, BackfillOps(message, restored.value, namespace, prior)).rows
           <==> key in table.rows || key in PortableKeys(message, namespace, prior)
      {
        BackfillAdds(env, table, message, restored.value, namespace, prior, key);
      }
    }
  }

  lemma KnownGrows(rows: map<Key, Row>, start: seq<Message>, namespace: Option<Namespace>, p: nat, key: Key)
    requires p < |start|
    ensures Known(rows, start, namespace, p + 1, key)
       <==> Known(rows, start, namespace, p, key) || (Asks(start, p) && key in BackfillKeysAt(start, namespace, p))
  {
    hide BackfillKeysAt, Asks;
  }

  /** As long as nothing is missing, the table knows what the earlier turns added. */
  lemma {:induction false} PassKnows(env: Env, table: Table, start: seq<Message>, namespace: Option<Namespace>, n: nat)
    requires NoEviction(env) && n <= |start|
    requires NormalizeAll(Backed(env, table), start[..n], namespace, Policy(true, true)).missing == []
    ensures var h := NormalizeAll(Backed(env, table), start[..n], namespace, Policy(true, true));
      && h.backend.Backed? && h.backend.env == env
      && forall key :: key in h.backend.table.rows <==> Known(table.rows, start, namespace, n, key)
  {
    hide NormalizeOne, Asks, BackfillKeysAt, Answered, NoEviction;
    if n == 0 {
      assert start[..0] == [];
    } else {
      var p := n - 1;
      NormalizeAllStep(Backed(env, table), start, namespace, Policy(true, true), p);
      PassKnows(env, table, start, namespace, p);
      OneTurn(env, table, start, namespace, p, NormalizeAll(Backed(env, table), start[..p], namespace,
                                                            Policy(true, true)));
      forall key
        ensures Known(table.rows, start, namespace, n, key)
           <==> (Known(table.rows, start, namespace, p, key)
                 || (Asks(start, p) && key in BackfillKeysAt(start, namespace, p)))
      {
        KnownGrows(table.rows, start, namespace, p, key);
      }
    }
  }

  /** The pass finds everything up to `n` exactly when every asking turn up to `n` is answered. */
  lemma {:induction false} PassFindsIff(env: Env, table: Table, start: seq<Message>, namespace: Option<Namespace>,
                                        n: nat)
    requires NoEviction(env) && n <= |start|
    ensures NormalizeAll(Backed(env, table), start[..n], namespace, Policy(true, true)).missing == []
       <==> forall p: nat | p < n && Asks(start, p) :: Answered(table.rows, start, namespace, p)
  {
    hide NormalizeOne, Asks, Answered, Known, NoEviction;
    if n == 0 {
      assert start[..0] == [];
    } else {
      var p := n - 1;
      PassFindsIff(env, table, start, namespace, p);
      NormalizeAllStep(Backed(env, table), start, namespace, Policy(true, true), p);
      var before := NormalizeAll(Backed(env, table), start[..p], namespace, Policy(true, true));
      if before.missing == [] {
        PassKnows(env, table, start, namespace, p);
        OneTurn(env, table, start, namespace, p, before);
      }
    }
  }

  lemma FirstPassFindsIff(env: Env, table: Table, settings: Settings, raw: seq<Message>)
    requires NoEviction(env) && settings.thinking
    ensures FirstPass(Backed(env, table), settings, raw).history.missing == []
       <==> AllAnswered(table.rows, StartOf(settings, raw), Some(SessionNamespace(settings, raw)))
  {
    hide Asks, Answered, NoEviction, PreRepair, MessagesForRepair, NormalizeAll, CacheNamespace;
    var start := StartOf(settings, raw);
    assert start[..|start|] == start;
    PassFindsIff(env, table, start, Some(SessionNamespace(settings, raw)), |start|);
  }

  /** Every turn that asks before a message with a notice is answered. */
  ghost predicate AnsweredBeforeNotices(rows: map<Key, Row>, start: seq<Message>, namespace: Option<Namespace>) {
    forall i: nat, p: nat | p < i < |start| && HasNotice(Plain(start[i])) && Asks(start, p) ::
      Answered(rows, start, namespace, p)
  }

  lemma FoundBeforeNoticesIff(env: Env, table: Table, start: seq<Message>, namespace: Option<Namespace>)
    requires NoEviction(env)
    ensures FoundBeforeNotices(Backed(env, table), start, namespace)
       <==> AnsweredBeforeNotices(table.rows, start, namespace)
  {
    hide NoEviction, Asks, Answered, NormalizeAll, HasNotice, Plain;
    forall i: nat | i < |start|
      ensures NormalizeAll(Backed(env, table), start[..i], namespace, Policy(true, true)).missing == []
         <==> forall p: nat | p < i && Asks(start, p) :: Answered(table.rows, start, namespace, p)
    {
      PassFindsIff(env, table, start, namespace, i);
    }
  }

  /** Exactly when recovery never cuts at a notice, told from the request and the table: every turn that asks
      before a notice is answered. */
  lemma NoticeBranchIffAnswered(env: Env, table: Table, settings: Settings, raw: seq<Message>)
    requires NoEviction(env) && settings.thinking && settings.strategy == Recover
    ensures NoticeBranchTaken(FirstPass(Backed(env, table), settings, raw), SessionNamespace(settings, raw), settings)
       <==> !AnsweredBeforeNotices(table.rows, StartOf(settings, raw), Some(SessionNamespace(settings, raw)))
  {
    hide NoEviction, FoundBeforeNotices, AnsweredBeforeNotices, NoticeBranchTaken, FirstPass;
    NoticeBranchIff(Backed(env, table), settings, raw);
    FoundBeforeNoticesIff(env, table, StartOf(settings, raw), Some(SessionNamespace(settings, raw)));
  }

  /** Under that condition recovery mode keeps the replay contract exactly when the request has a user message
      or the table answers every turn that asks. */
  lemma RecoverReplaysIffAnswered(env: Env, table: Table, settings: Settings, raw: seq<Message>)
    requires NoEviction(env) && settings.thinking && settings.strategy == Recover
    requires AnsweredBeforeNotices(table.rows, StartOf(settings, raw), Some(SessionNamespace(settings, raw)))
    ensures Replayed(PrepareRequest(Backed(env, table), settings, raw).outgoing)
       <==> HasUser(raw) || AllAnswered(table.rows, StartOf(settings, raw), Some(SessionNamespace(settings, raw)))
  {
    hide AllAnswered, AnsweredBeforeNotices, FoundBeforeNotices, Replayed, HasUser, FirstPass, PrepareRequest,
      NoEviction;
    FoundBeforeNoticesIff(env, table, StartOf(settings, raw), Some(SessionNamespace(settings, raw)));
    RecoverReplaysIff(Backed(env, table), settings, raw);
    FirstPassFindsIff(env, table, settings, raw);
  }

  /** Strict mode forwards a request exactly when the table answers every turn that asks. */
  lemma StrictForwardsIffAnswered(env: Env, table: Table, settings: Settings, raw: seq<Message>)
    requires NoEviction(env) && settings.thinking && settings.strategy == Reject
    ensures StrictGate(settings, PrepareRequest(Backed(env, table), settings, raw)).Forward?
       <==> AllAnswered(table.rows, PreRepair(settings, raw), Some(SessionNamespace(settings, raw)))
  {
    hide AllAnswered, NoEviction;
    FirstPassFindsIff(env, table, settings, raw);
    assert StartOf(settings, raw) == PreRepair(settings, raw);
    assert Repaired(Backed(env, table), settings, raw) == FirstPass(Backed(env, table), settings, raw);
  }
}
