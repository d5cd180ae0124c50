/** What the keys of a message tell about it, and what looking it up therefore finds. */
module KeyContents {
  import opened Messages
  import opened Keys
  import opened ReasoningStore
  import opened NormalForm
  import opened Recording

  // ----- Signatures and scopes -----

  /** Two lists of calls that normalise alike. */
  ghost predicate SameCalls(a: seq<ToolCall>, b: seq<ToolCall>) {
    exists calls :: AreNormalCalls(a, calls) && AreNormalCalls(b, calls)
  }

  lemma SameCallsIff(a: seq<ToolCall>, b: seq<ToolCall>)
    ensures SameCalls(a, b) <==> NormalizeToolCalls(a) == NormalizeToolCalls(b)
  {
    hide NormalizeToolCalls, AreNormalCalls;
    NormalCallsAreUnique(a, NormalizeToolCalls(a));
    NormalCallsAreUnique(b, NormalizeToolCalls(a));
    if calls :| AreNormalCalls(a, calls) && AreNormalCalls(b, calls) {
      NormalCallsAreUnique(a, calls);
      NormalCallsAreUnique(b, calls);
    }
  }

  /** Two messages with the same content, absent content being empty, and the same calls. */
  ghost predicate SameText(a: Message, b: Message) {
    GivenText(a) == GivenText(b) && SameCalls(a.toolCalls, b.toolCalls)
  }

  /** Two messages share a signature exactly when their contents and their calls agree. */
  lemma SignatureIff(a: Message, b: Message)
    ensures MessageSignature(a) == MessageSignature(b) <==> SameText(a, b)
  {
    hide NormalizeToolCalls, SameCalls;
    SameCallsIff(a.toolCalls, b.toolCalls);
  }

  /** Two messages that a scope does not tell apart: all but the reasoning agrees. */
  ghost predicate SameCanonically(a: Message, b: Message) {
    && a.role == b.role && a.content == b.content && a.name == b.name
    && a.toolCallId == b.toolCallId && a.prefix == b.prefix && SameCalls(a.toolCalls, b.toolCalls)
  }

  lemma CanonicalIff(a: Message, b: Message)
    ensures CanonicalScopeMessage(a) == CanonicalScopeMessage(b) <==> SameCanonically(a, b)
  {
    hide NormalizeToolCalls, SameCalls;
    SameCallsIff(a.toolCalls, b.toolCalls);
  }

  /** Two histories have one scope exactly when they agree message by message, reasoning aside, in one
      namespace. */
  lemma ScopeIff(a: seq<Message>, m: Option<Namespace>, b: seq<Message>, n: Option<Namespace>)
    ensures ConversationScope(a, m) == ConversationScope(b, n)
       <==> m == n && |a| == |b| && forall i | 0 <= i < |a| :: SameCanonically(a[i], b[i])
  {
    hide CanonicalScopeMessage, SameCanonically;
    forall i | 0 <= i < |a| && i < |b|
      ensures CanonicalScopeMessage(a[i]) == CanonicalScopeMessage(b[i]) <==> SameCanonically(a[i], b[i])
    {
      CanonicalIff(a[i], b[i]);
    }
    assert |Canonical(a)| == |a| && |Canonical(b)| == |b|;
    if |a| == |b| && forall i | 0 <= i < |a| :: SameCanonically(a[i], b[i]) {
      assert Canonical(a) == Canonical(b);
    }
    if Canonical(a) == Canonical(b) {
      assert forall i | 0 <= i < |a| :: Canonical(a)[i] == Canonical(b)[i];
    }
  }

  // ----- The turn -----

  /** Where the turn begins: at the first of the user messages that the last user message stands with. */
  ghost predicate BeginsTurn(prior: seq<Message>, start: nat) {
    if forall m | m in prior :: m.role != User then start == 0
    else exists last: nat :: LastRun(prior, start, last)
  }

  ghost predicate LastRun(prior: seq<Message>, start: nat, last: nat) {
    && start <= last < |prior|
    && (forall i | last < i < |prior| :: prior[i].role != User)
    && (forall i | start <= i <= last :: prior[i].role == User)
    && (start > 0 ==> prior[start - 1].role != User)
  }

  lemma TurnBegins(prior: seq<Message>)
    ensures BeginsTurn(prior, TurnStart(prior))
  {
    var last := LastUser(prior);
    if last >= 0 {
      assert prior[last] in prior;
      assert LastRun(prior, TurnStart(prior), last);
    }
  }

  /** `at` lists the positions from `start` on that are not system messages. */
  ghost predicate NonSystem(messages: seq<Message>, start: nat, at: seq<nat>) {
    && (forall k | 0 <= k < |at| :: start <= at[k] < |messages| && messages[at[k]].role != System)
    && (forall j, k | 0 <= j < k < |at| :: at[j] < at[k])
    && (forall i: nat | start <= i < |messages| && messages[i].role != System :: i in at)
  }

  lemma NonSystemFirst(messages: seq<Message>, start: nat, rest: seq<nat>)
    requires start < |messages| && NonSystem(messages, start + 1, rest) && messages[start].role != System
    ensures NonSystem(messages, start, [start] + rest)
  {
    var at := [start] + rest;
    assert forall k | 0 < k < |at| :: at[k] == rest[k - 1];
    forall i: nat | start <= i < |messages| && messages[i].role != System
      ensures i in at
    {
      if i > start {
        assert i in rest;
      }
    }
  }

  lemma SystemIsSkipped(messages: seq<Message>, start: nat, rest: seq<nat>)
    requires start < |messages| && NonSystem(messages, start + 1, rest) && messages[start].role == System
    ensures NonSystem(messages, start, rest)
  {
  }

  lemma PickedStep(messages: seq<Message>, start: nat)
    requires start < |messages|
    ensures WithoutSystem(messages[start..])
         == (if messages[start].role == System then [] else [CanonicalScopeMessage(messages[start])])
            + WithoutSystem(messages[start + 1..])
  {
    hide CanonicalScopeMessage;
    SuffixStep(messages, start);
  }

  /** `context` holds the messages at these positions in canonical form. */
  ghost predicate HoldsPicked(messages: seq<Message>, at: seq<nat>, context: seq<Message>) {
    && |context| == |at|
    && forall k | 0 <= k < |at| :: at[k] < |messages| && context[k] == CanonicalScopeMessage(messages[at[k]])
  }

  lemma HoldsOneMore(messages: seq<Message>, start: nat, at: seq<nat>, context: seq<Message>)
    requires start < |messages| && HoldsPicked(messages, at, context)
    ensures HoldsPicked(messages, [start] + at, [CanonicalScopeMessage(messages[start])] + context)
  {
    hide CanonicalScopeMessage;
  }

  lemma {:induction false} FilterPicks(messages: seq<Message>, start: nat) returns (at: seq<nat>)
    requires start <= |messages|
    ensures NonSystem(messages, start, at) && HoldsPicked(messages, at, WithoutSystem(messages[start..]))
    decreases |messages| - start
  {
    hide CanonicalScopeMessage, NonSystem, WithoutSystem, HoldsPicked;
    if start == |messages| {
      at := [];
      NothingToPick(messages);
    } else {
      PickedStep(messages, start);
      var rest := FilterPicks(messages, start + 1);
      var later := WithoutSystem(messages[start + 1..]);
      if messages[start].role == System {
        SystemIsSkipped(messages, start, rest);
        at := rest;
        assert [] + later == later;
      } else {
        NonSystemFirst(messages, start, rest);
        HoldsOneMore(messages, start, rest, later);
        at := [start] + rest;
      }
    }
  }

  lemma NothingToPick(messages: seq<Message>)
    ensures NonSystem(messages, |messages|, []) && HoldsPicked(messages, [], WithoutSystem(messages[|messages|..]))
  {
  }

  /** The turn holds, in order and in canonical form, every message from its beginning on that is not a system
      message. */
  lemma TurnContents(prior: seq<Message>) returns (start: nat, at: seq<nat>)
    ensures BeginsTurn(prior, start) && NonSystem(prior, start, at)
    ensures |TurnContext(prior)| == |at|
    ensures forall k | 0 <= k < |at| :: SameCanonically(TurnContext(prior)[k], prior[at[k]])
    ensures forall m | m in TurnContext(prior) :: m.reasoning == None
  {
    hide BeginsTurn, SameCanonically, CanonicalScopeMessage;
    TurnBegins(prior);
    start := TurnStart(prior);
    at := FilterPicks(prior, start);
    forall k | 0 <= k < |at|
      ensures SameCanonically(TurnContext(prior)[k], prior[at[k]]) && TurnContext(prior)[k].reasoning == None
    {
      CanonicalTwice(prior[at[k]]);
      CanonicalIff(CanonicalScopeMessage(prior[at[k]]), prior[at[k]]);
    }
  }

  lemma CanonicalTwice(message: Message)
    ensures CanonicalScopeMessage(CanonicalScopeMessage(message)) == CanonicalScopeMessage(message)
    ensures CanonicalScopeMessage(message).reasoning == None
  {
    NormalizeToolCallsIdempotent(message.toolCalls);
  }

  // ----- Aliases -----

  /** A call as it counts for its signature: normal, and without its id. */
  ghost predicate IsCallOf(raw: ToolCall, call: ToolCall) {
    call.id == Absent && IsNormalBody(raw, call)
  }

  /** What the aliases of a message are, kind by kind. */
  ghost predicate Names(alias: Alias, message: Message) {
    match alias
    case Signature(content, calls) => content == GivenText(message) && AreNormalCalls(message.toolCalls, calls)
    case CallId(id) => id != "" && exists c :: c in message.toolCalls && IsPrintedId(c.id, Given(id))
    case CallSignature(call) => exists c :: c in message.toolCalls && IsCallOf(c, call)
    case CallName(name) => name != "" && exists c :: c in message.toolCalls && c.name == Some(name)
  }

  lemma {:induction false} CallAliases(calls: seq<ToolCall>, alias: Alias)
    ensures alias in ToolCallIds(calls)
       <==> alias.CallId? && exists c :: c in calls && IsPrintedId(c.id, Given(alias.id)) && alias.id != ""
    ensures alias in ToolCallSignatures(calls)
       <==> alias.CallSignature? && exists c :: c in calls && IsCallOf(c, alias.call)
    ensures alias in ToolCallNames(calls)
       <==> alias.CallName? && exists c :: c in calls && c.name == Some(alias.name) && alias.name != ""
  {
    hide IsPrintedId, IsCallOf, ToolCallSignature, Printed;
    if calls != [] {
      CallAliases(calls[1..], alias);
      assert forall c :: c in calls <==> c == calls[0] || c in calls[1..];
      FirstCallAliases(calls[0], alias);
    }
  }

  lemma FirstCallAliases(call: ToolCall, alias: Alias)
    ensures alias == CallId(Printed(call.id)) && Printed(call.id) != ""
       <==> alias.CallId? && IsPrintedId(call.id, Given(alias.id)) && alias.id != ""
    ensures alias == ToolCallSignature(call) <==> alias.CallSignature? && IsCallOf(call, alias.call)
  {
  }

  /** A message is known by exactly these names: its content with its calls, the id, the signature and the name
      of each of its calls. */
  lemma AliasIff(message: Message, alias: Alias)
    ensures alias in Aliases(message) <==> Names(alias, message)
  {
    hide ToolCallIds, ToolCallSignatures, ToolCallNames, AreNormalCalls, IsPrintedId, IsCallOf, NormalizeToolCalls;
    CallAliases(message.toolCalls, alias);
    if alias.Signature? {
      NormalCallsAreUnique(message.toolCalls, alias.calls);
    }
  }

  function Kind(alias: Alias): nat {
    match alias
    case Signature(_, _) => 0
    case CallId(_) => 1
    case CallSignature(_) => 2
    case CallName(_) => 3
  }

  /** The more specific kinds come first. */
  lemma AliasesAreRanked(message: Message)
    ensures var a := Aliases(message); forall i, k | 0 <= i < k < |a| :: Kind(a[i]) <= Kind(a[k])
  {
    hide ToolCallIds, ToolCallSignatures, ToolCallNames, MessageSignature;
    var x, y, z := ToolCallIds(message.toolCalls), ToolCallSignatures(message.toolCalls),
      ToolCallNames(message.toolCalls);
    assert forall a | a in x :: Kind(a) == 1 by { KindsOfCalls(message.toolCalls); }
    assert forall a | a in y :: Kind(a) == 2 by { KindsOfCalls(message.toolCalls); }
    assert forall a | a in z :: Kind(a) == 3 by { KindsOfCalls(message.toolCalls); }
    assert Kind(MessageSignature(message)) == 0 by { SignatureKind(message); }
  }

  lemma SignatureKind(message: Message)
    ensures Kind(MessageSignature(message)) == 0
  {
  }

  lemma {:induction false} KindsOfCalls(calls: seq<ToolCall>)
    ensures forall a | a in ToolCallIds(calls) :: Kind(a) == 1
    ensures forall a | a in ToolCallSignatures(calls) :: Kind(a) == 2
    ensures forall a | a in ToolCallNames(calls) :: Kind(a) == 3
  {
    if calls != [] {
      KindsOfCalls(calls[1..]);
    }
  }

  /** The key names the message under the scope or, with a namespace and prior messages, under the turn. */
  ghost predicate IsKeyOf(key: Key, message: Message, scope: Scope, namespace: Option<Namespace>,
                          prior: seq<Message>) {
    match key
    case Scoped(s, alias) => s == scope && Names(alias, message)
    case Portable(n, turn, alias) =>
      namespace == Some(n) && prior != [] && turn == TurnContext(prior) && Names(alias, message)
  }

  /** Recording and lookup use exactly these keys, those under the scope first. */
  lemma KeysIff(message: Message, scope: Scope, namespace: Option<Namespace>, prior: seq<Message>)
    ensures var keys := MessageKeys(message, scope, namespace, prior);
      && (forall key :: key in keys <==> IsKeyOf(key, message, scope, namespace, prior))
      && (forall i, k | 0 <= i < k < |keys| && keys[k].Scoped? :: keys[i].Scoped?)
  {
    hide Aliases, Names, TurnContext;
    var keys := MessageKeys(message, scope, namespace, prior);
    forall key
      ensures key in keys <==> IsKeyOf(key, message, scope, namespace, prior)
    {
      var alias := if key.Scoped? then key.scopedAlias else key.portableAlias;
      AliasIff(message, alias);
      if alias in Aliases(message) {
        var i :| 0 <= i < |Aliases(message)| && Aliases(message)[i] == alias;
        assert ScopedKeys(message, scope)[i] in ScopedKeys(message, scope);
        if namespace.Some? {
          assert PortableKeys(message, namespace, prior)[i] in PortableKeys(message, namespace, prior);
        }
      }
    }
  }

  /** A backfill writes the restored reasoning under exactly the names of the message under its turn, prior
      messages or not. */
  lemma BackfillsIff(message: Message, reasoning: string, namespace: Option<Namespace>, prior: seq<Message>, op: Op)
    ensures op in BackfillOps(message, reasoning, namespace, prior)
       <==> op.Put? && op.reasoning == reasoning && op.key.Portable? && namespace == Some(op.key.namespace)
            && op.key.turn == TurnContext(prior) && Names(op.key.portableAlias, message)
  {
    hide Aliases, Names, TurnContext;
    var keys := PortableKeys(message, namespace, prior);
    var ops := BackfillOps(message, reasoning, namespace, prior);
    if op.Put? && op.key.Portable? && namespace.Some? {
      AliasIff(message, op.key.portableAlias);
      if op.key.portableAlias in Aliases(message) {
        var i :| 0 <= i < |Aliases(message)| && Aliases(message)[i] == op.key.portableAlias;
        assert keys[i] in keys;
      }
    }
    if op in ops {
      assert op.key in UniqueKeys(keys);
      var i :| 0 <= i < |keys| && keys[i] == op.key;
      AliasIff(message, Aliases(message)[i]);
    } else if op.Put? && op.key in keys && op.reasoning == reasoning {
      var i :| 0 <= i < |UniqueKeys(keys)| && UniqueKeys(keys)[i] == op.key;
      assert ops[i] in ops;
    }
  }

  // ----- What a lookup finds -----

  /** One message handed to StoreAssistantMessage. */
  datatype Recorded = Recorded(message: Message, scope: Scope, namespace: Option<Namespace>, prior: seq<Message>)

  function Writes(r: Recorded): seq<Op> {
    StoreOps(r.message, r.scope, r.namespace, r.prior)
  }

  function AllWrites(items: seq<Recorded>): seq<Op> {
    if items == [] then [] else AllWrites(items[..|items| - 1]) + Writes(items[|items| - 1])
  }

  lemma WritesAreElsewhere(r: Recorded, scope: Scope, message: Message)
    requires r.scope == scope ==> !SameText(r.message, message)
    ensures OnlyPuts(Writes(r)) && LastWritten(Writes(r), Scoped(scope, MessageSignature(message))) == None
  {
    hide MessageSignature, MessageKeys, Aliases;
    var key, ops := Scoped(scope, MessageSignature(message)), Writes(r);
    if ops != [] {
      StoreOpsContents(r.message, r.scope, r.namespace, r.prior);
      assert key !in MessageKeys(r.message, r.scope, r.namespace, r.prior) by { KeyIsElsewhere(r, scope, message); }
      NotWritten(ops, key);
    }
  }

  lemma KeyIsElsewhere(r: Recorded, scope: Scope, message: Message)
    requires r.scope == scope ==> !SameText(r.message, message)
    ensures Scoped(scope, MessageSignature(message)) !in MessageKeys(r.message, r.scope, r.namespace, r.prior)
  {
    hide Aliases, AreNormalCalls, NormalizeToolCalls;
    var alias := MessageSignature(message);
    if Scoped(scope, alias) in MessageKeys(r.message, r.scope, r.namespace, r.prior) {
      assert r.scope == scope && alias in Aliases(r.message);
      AliasIff(r.message, alias);
      NormalCallsAreUnique(message.toolCalls, alias.calls);
    }
  }

  lemma {:induction false} AllElsewhere(items: seq<Recorded>, scope: Scope, message: Message)
    requires forall r | r in items && r.scope == scope :: !SameText(r.message, message)
    ensures OnlyPuts(AllWrites(items))
    ensures LastWritten(AllWrites(items), Scoped(scope, MessageSignature(message))) == None
  {
    hide SameText, MessageSignature, Writes;
    if items != [] {
      var n := |items| - 1;
      assert items[n] in items;
      AllElsewhere(items[..n], scope, message);
      WritesAreElsewhere(items[n], scope, message);
      LastWrittenConcat(AllWrites(items[..n]), Writes(items[n]), Scoped(scope, MessageSignature(message)));
    }
  }

  /** After a message and any others were recorded, an echo with the same content and calls is answered with the
      message's own reasoning, unless a later one with the same content and calls was recorded under the same
      scope; under limits, as long as its row is kept. */
  lemma EchoFindsOwn(env: Env, table: Table, own: Recorded, later: seq<Recorded>, echo: Message,
                     namespace: Option<Namespace>, prior: seq<Message>)
    requires own.message.role == Assistant && own.message.reasoning.Some? && SameText(own.message, echo)
    requires forall r | r in later && r.scope == own.scope :: !SameText(r.message, own.message)
    ensures var after := ApplyAll(env, table, Writes(own) + AllWrites(later));
      NoEviction(env) || Scoped(own.scope, MessageSignature(echo)) in after.rows ==>
        Lookup(after, echo, own.scope, namespace, prior) == own.message.reasoning
  {
    hide SameText, MessageSignature, NoEviction, MessageKeys, StoreOps, ApplyAll;
    var key := Scoped(own.scope, MessageSignature(echo));
    SignatureIff(own.message, echo);
    StoreOpsContents(own.message, own.scope, own.namespace, own.prior);
    assert key in MessageKeys(own.message, own.scope, own.namespace, own.prior) by { FirstKey(own); }
    WrittenAlike(Writes(own), key, own.message.reasoning.value);
    AllElsewhere(later, own.scope, own.message);
    LastWrittenConcat(Writes(own), AllWrites(later), key);
    RowIsLastWrite(env, table, Writes(own) + AllWrites(later), key);
    var after := ApplyAll(env, table, Writes(own) + AllWrites(later));
    if key in after.rows {
      FirstHitIsFirst(after.rows, MessageKeys(echo, own.scope, namespace, prior), 0);
    }
  }

  lemma FirstKey(r: Recorded)
    ensures Scoped(r.scope, MessageSignature(r.message)) in MessageKeys(r.message, r.scope, r.namespace, r.prior)
  {
    hide MessageSignature;
  }

  lemma OneWrite(r: Recorded)
    ensures AllWrites([r]) == Writes(r)
  {
    hide Writes;
    assert [r][..0] == [] && [] + Writes(r) == Writes(r);
  }

  /** Two answers with different contents to one history: each is found with its own reasoning. */
  lemma TwoAnswers(env: Env, table: Table, scope: Scope, namespace: Option<Namespace>, prior: seq<Message>,
                   a: Message, b: Message)
    requires NoEviction(env)
    requires a.role == b.role == Assistant && a.reasoning.Some? && b.reasoning.Some?
    requires GivenText(a) != GivenText(b)
    ensures var after := ApplyAll(env, ApplyAll(env, table, StoreOps(a, scope, namespace, prior)),
                                  StoreOps(b, scope, namespace, prior));
      && Lookup(after, a, scope, namespace, prior) == a.reasoning
      && Lookup(after, b, scope, namespace, prior) == b.reasoning
  {
    hide MessageKeys, StoreOps, ApplyAll, NoEviction, NormalizeToolCalls, AreNormalCalls;
    var first, second := Recorded(a, scope, namespace, prior), Recorded(b, scope, namespace, prior);
    SameCallsIff(a.toolCalls, a.toolCalls);
    SameCallsIff(b.toolCalls, b.toolCalls);
    OneWrite(second);
    ApplyAllConcat(env, table, Writes(first), Writes(second));
    EchoFindsOwn(env, table, first, [second], a, namespace, prior);
    EchoFindsOwn(env, ApplyAll(env, table, Writes(first)), second, [], b, namespace, prior);
    assert Writes(second) + AllWrites([]) == Writes(second);
  }
}
