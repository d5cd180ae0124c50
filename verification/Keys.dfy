/** Cache keys of the reasoning store.

    A SHA-256 digest is represented by the value that is digested. Module KeyText gives the texts
    behind the keys and proves that, unless the digest collides on what they digest, two texts are
    equal exactly when the keys are. */
module Keys {
  import opened Messages
  import opened JsonCanonical

  /** What ReasoningCacheNamespace digests. */
  datatype Namespace = Namespace(
    baseUrl: string,
    model: string,
    thinking: bool,
    effort: Json,
    authorization: string,
    userId: string,
    context: RuntimeContext)

  /** What RuntimeContextHash digests. */
  datatype RuntimeContext = RuntimeContext(systems: seq<Message>, tools: seq<Json>, toolChoice: Json)

  datatype Scope = Scope(namespace: Option<Namespace>, messages: seq<Message>)

  /** The four ways of naming one assistant message. */
  datatype Alias =
    | Signature(content: string, calls: seq<ToolCall>)
    | CallId(id: string)
    | CallSignature(call: ToolCall)
    | CallName(name: string)

  datatype Key =
    | Scoped(scope: Scope, scopedAlias: Alias)
    | Portable(namespace: Namespace, turn: seq<Message>, portableAlias: Alias)

  // ----- Canonical messages and scopes -----

  function CanonicalScopeMessage(message: Message): Message {
    message.(toolCalls := NormalizeToolCalls(message.toolCalls), reasoning := None)
  }

  function Canonical(messages: seq<Message>): (r: seq<Message>)
    ensures |r| == |messages|
    ensures forall i | 0 <= i < |messages| :: r[i] == CanonicalScopeMessage(messages[i])
  {
    seq(|messages|, i requires 0 <= i < |messages| => CanonicalScopeMessage(messages[i]))
  }

  lemma CanonicalPrefix(a: seq<Message>, n: nat)
    requires n <= |a|
    ensures Canonical(a[..n]) == Canonical(a)[..n]
  {
  }

  function ConversationScope(messages: seq<Message>, namespace: Option<Namespace>): Scope {
    Scope(namespace, Canonical(messages))
  }

  // ----- Turn context -----

  /** The index of the last user message, or -1. */
  function LastUser(messages: seq<Message>): (i: int)
    ensures -1 <= i < |messages|
    ensures i >= 0 ==> messages[i].role == User
    ensures forall j | i < j < |messages| :: messages[j].role != User
  {
    if messages == [] then -1
    else if messages[|messages| - 1].role == User then |messages| - 1
    else LastUser(messages[..|messages| - 1])
  }

  /** The first index of the run of user messages that ends at `i`. */
  function RunStart(messages: seq<Message>, i: nat): (start: nat)
    requires i < |messages|
    ensures start <= i
    ensures forall j | start <= j < i :: messages[j].role == User
    ensures start > 0 ==> messages[start - 1].role != User
  {
    if i > 0 && messages[i - 1].role == User then RunStart(messages, i - 1) else i
  }

  function WithoutSystem(messages: seq<Message>): seq<Message> {
    if messages == [] then []
    else if messages[0].role == System then WithoutSystem(messages[1..])
    else [CanonicalScopeMessage(messages[0])] + WithoutSystem(messages[1..])
  }

  function TurnStart(prior: seq<Message>): (start: nat)
    ensures start <= |prior|
  {
    if LastUser(prior) == -1 then 0 else RunStart(prior, LastUser(prior))
  }

  function TurnContext(prior: seq<Message>): seq<Message> {
    WithoutSystem(prior[TurnStart(prior)..])
  }

  /** The backward search for the last user message before position `end`. */
  method FindLastUser(messages: seq<Message>, end: nat) returns (i: int)
    requires end <= |messages|
    ensures i == LastUser(messages[..end])
  {
    i := end - 1;
    while i >= 0 && messages[i].role != User
      invariant -1 <= i < end
      invariant forall j | i < j < end :: messages[j].role != User
    {
      i := i - 1;
    }
    LastUserUnique(messages[..end], i);
  }

  lemma {:induction false} LastUserUnique(messages: seq<Message>, i: int)
    requires -1 <= i < |messages|
    requires i >= 0 ==> messages[i].role == User
    requires forall j | i < j < |messages| :: messages[j].role != User
    ensures LastUser(messages) == i
  {
    var found := LastUser(messages);
  }

  method TurnContextSignature(prior: seq<Message>) returns (context: seq<Message>)
    ensures context == TurnContext(prior)
  {
    var lastUser := FindLastUser(prior, |prior|);
    assert prior[..|prior|] == prior;
    var start := 0;
    if lastUser != -1 {
      start := lastUser;
      while start > 0 && prior[start - 1].role == User
        invariant 0 <= start <= lastUser
        invariant RunStart(prior, lastUser) == RunStart(prior, start)
      {
        start := start - 1;
      }
    }
    context := SkipSystem(prior[start..]);
  }

  method SkipSystem(messages: seq<Message>) returns (context: seq<Message>)
    ensures context == WithoutSystem(messages)
  {
    context := [];
    for k := 0 to |messages|
      invariant WithoutSystem(messages) == context + WithoutSystem(messages[k..])
    {
      if messages[k].role != System {
        context := context + [CanonicalScopeMessage(messages[k])];
      }
    }
  }

  lemma {:induction false} WithoutSystemConcat(a: seq<Message>, b: seq<Message>)
    ensures WithoutSystem(a + b) == WithoutSystem(a) + WithoutSystem(b)
  {
    if a == [] {
      assert a + b == b;
    } else {
      assert (a + b)[1..] == a[1..] + b;
      WithoutSystemConcat(a[1..], b);
    }
  }

  lemma LastUserConcat(a: seq<Message>, b: seq<Message>)
    requires LastUser(b) >= 0
    ensures LastUser(a + b) == |a| + LastUser(b)
  {
    var all, last := a + b, |a| + LastUser(b);
    assert all[last].role == User;
    forall j | last < j < |all|
      ensures all[j].role != User
    {
      assert all[j] == b[j - |a|];
    }
    LastUserUnique(all, last);
  }

  lemma {:induction false} RunStartConcat(a: seq<Message>, b: seq<Message>, i: nat)
    requires i < |b|
    requires a == [] || a[|a| - 1].role != User
    ensures RunStart(a + b, |a| + i) == |a| + RunStart(b, i)
  {
    if i > 0 {
      assert (a + b)[|a| + i - 1] == b[i - 1];
      RunStartConcat(a, b, i - 1);
    }
  }

  lemma DropConcat(a: seq<Message>, b: seq<Message>, n: nat)
    requires n <= |b|
    ensures (a + b)[|a| + n..] == b[n..]
  {
  }

  lemma TurnStartConcat(a: seq<Message>, b: seq<Message>)
    requires LastUser(b) >= 0
    requires a == [] || a[|a| - 1].role != User
    ensures TurnStart(a + b) == |a| + TurnStart(b)
  {
    LastUserConcat(a, b);
    RunStartConcat(a, b, LastUser(b));
  }

  /** History before the current run of user messages is not part of the turn, whatever it is. */
  lemma TurnIgnoresEarlierHistory(earlier: seq<Message>, turn: seq<Message>)
    requires LastUser(turn) >= 0
    requires earlier == [] || earlier[|earlier| - 1].role != User
    ensures TurnContext(earlier + turn) == TurnContext(turn)
  {
    hide TurnStart, WithoutSystem, LastUser;
    TurnStartConcat(earlier, turn);
    DropConcat(earlier, turn, TurnStart(turn));
  }

  lemma {:induction false} RunStartUnique(messages: seq<Message>, i: nat, start: nat)
    requires start <= i < |messages|
    requires forall j | start <= j < i :: messages[j].role == User
    requires start > 0 ==> messages[start - 1].role != User
    ensures RunStart(messages, i) == start
  {
    if start < i {
      RunStartUnique(messages, i - 1, start);
    }
  }

  /** A system message after a turn's last user message is not part of the turn. */
  lemma TurnIgnoresLaterSystem(turn: seq<Message>, system: Message)
    requires system.role == System
    ensures TurnContext(turn + [system]) == TurnContext(turn)
  {
    var all := turn + [system];
    assert all[..|turn|] == turn;
    if LastUser(turn) >= 0 {
      RunStartUnique(all, LastUser(turn), RunStart(turn, LastUser(turn)));
    }
    var start := TurnStart(turn);
    assert all[start..] == turn[start..] + [system];
    WithoutSystemConcat(turn[start..], [system]);
  }

  // ----- Aliases of a message -----

  function ToolCallIds(calls: seq<ToolCall>): seq<Alias> {
    if calls == [] then [] else
    var id := Printed(calls[0].id);
    (if id != "" then [CallId(id)] else []) + ToolCallIds(calls[1..])
  }

  function ToolCallSignature(call: ToolCall): Alias {
    CallSignature(NormalizeToolCall(call).(id := Absent))
  }

  function ToolCallSignatures(calls: seq<ToolCall>): (r: seq<Alias>) {
    if calls == [] then [] else [ToolCallSignature(calls[0])] + ToolCallSignatures(calls[1..])
  }

  function ToolCallNames(calls: seq<ToolCall>): seq<Alias> {
    if calls == [] then [] else
    var name := calls[0].name;
    (if name.Some? && name.value != "" then [CallName(name.value)] else []) + ToolCallNames(calls[1..])
  }

  function MessageSignature(message: Message): Alias {
    Signature(message.content.GetOr(""), NormalizeToolCalls(message.toolCalls))
  }

  /** The aliases in lookup order: the most specific first. */
  function Aliases(message: Message): (r: seq<Alias>)
    ensures r != [] && r[0] == MessageSignature(message)
  {
    [MessageSignature(message)]
    + ToolCallIds(message.toolCalls)
    + ToolCallSignatures(message.toolCalls)
    + ToolCallNames(message.toolCalls)
  }

  function ScopedKeys(message: Message, scope: Scope): (r: seq<Key>)
    ensures |r| == |Aliases(message)|
    ensures forall i | 0 <= i < |r| :: r[i] == Scoped(scope, Aliases(message)[i])
  {
    var aliases := Aliases(message);
    seq(|aliases|, i requires 0 <= i < |aliases| => Scoped(scope, aliases[i]))
  }

  function PortableKeys(message: Message, namespace: Option<Namespace>, prior: seq<Message>): (r: seq<Key>)
    ensures namespace.None? ==> r == []
    ensures namespace.Some? ==> |r| == |Aliases(message)|
    ensures forall i | 0 <= i < |r| :: r[i] == Portable(namespace.value, TurnContext(prior), Aliases(message)[i])
  {
    if namespace.None? then [] else
    var aliases := Aliases(message);
    seq(|aliases|, i requires 0 <= i < |aliases| => Portable(namespace.value, TurnContext(prior), aliases[i]))
  }

  /** The keys that StoreAssistantMessage writes and LookupForMessage tries. The prior messages are
      a nil slice exactly when there are none, and then no portable key is used. */
  function MessageKeys(message: Message, scope: Scope, namespace: Option<Namespace>, prior: seq<Message>)
    : (r: seq<Key>)
    ensures r != [] && r[0] == Scoped(scope, MessageSignature(message))
  {
    ScopedKeys(message, scope) + (if prior == [] then [] else PortableKeys(message, namespace, prior))
  }

  method ScopedReasoningKeys(message: Message, scope: Scope) returns (keys: seq<Key>)
    ensures keys == ScopedKeys(message, scope)
  {
    hide Aliases, ScopedKeys;
    var aliases := AliasList(message);
    keys := [];
    for i := 0 to |aliases|
      invariant keys == ScopedKeys(message, scope)[..i]
    {
      keys := keys + [Scoped(scope, aliases[i])];
    }
  }

  method PortableReasoningKeys(message: Message, namespace: Option<Namespace>, prior: seq<Message>)
    returns (keys: seq<Key>)
    ensures keys == PortableKeys(message, namespace, prior)
  {
    hide Aliases, PortableKeys;
    if namespace.None? {
      return [];
    }
    var turn := TurnContextSignature(prior);
    var aliases := AliasList(message);
    keys := [];
    for i := 0 to |aliases|
      invariant keys == PortableKeys(message, namespace, prior)[..i]
    {
      keys := keys + [Portable(namespace.value, turn, aliases[i])];
    }
  }

  /** The signature, then the ids, then the call signatures, then the names. */
  method AliasList(message: Message) returns (aliases: seq<Alias>)
    ensures aliases == Aliases(message)
  {
    hide MessageSignature, ToolCallIds, ToolCallSignatures, ToolCallNames;
    var ids := ToolCallIdsLoop(message.toolCalls);
    var signatures := ToolCallSignaturesLoop(message.toolCalls);
    var names := ToolCallNamesLoop(message.toolCalls);
    aliases := [MessageSignature(message)] + ids + signatures + names;
  }

  method ToolCallIdsLoop(calls: seq<ToolCall>) returns (ids: seq<Alias>)
    ensures ids == ToolCallIds(calls)
  {
    hide Printed;
    ids := [];
    for i := 0 to |calls|
      invariant ToolCallIds(calls) == ids + ToolCallIds(calls[i..])
    {
      var id := Printed(calls[i].id);
      SuffixStep(calls, i);
      Reassociate(ids, if id != "" then [CallId(id)] else [], ToolCallIds(calls[i + 1..]));
      if id != "" {
        ids := ids + [CallId(id)];
      }
    }
  }

  method ToolCallSignaturesLoop(calls: seq<ToolCall>) returns (signatures: seq<Alias>)
    ensures signatures == ToolCallSignatures(calls)
  {
    hide ToolCallSignature;
    signatures := [];
    for i := 0 to |calls|
      invariant ToolCallSignatures(calls) == signatures + ToolCallSignatures(calls[i..])
    {
      SuffixStep(calls, i);
      Reassociate(signatures, [ToolCallSignature(calls[i])], ToolCallSignatures(calls[i + 1..]));
      signatures := signatures + [ToolCallSignature(calls[i])];
    }
  }

  method ToolCallNamesLoop(calls: seq<ToolCall>) returns (names: seq<Alias>)
    ensures names == ToolCallNames(calls)
  {
    names := [];
    for i := 0 to |calls|
      invariant ToolCallNames(calls) == names + ToolCallNames(calls[i..])
    {
      var name := calls[i].name;
      SuffixStep(calls, i);
      Reassociate(names, if name.Some? && name.value != "" then [CallName(name.value)] else [],
                  ToolCallNames(calls[i + 1..]));
      if name.Some? && name.value != "" {
        names := names + [CallName(name.value)];
      }
    }
  }

  /** Aliases only see the canonical content and calls. */
  lemma AliasesOfNormalizedCalls(message: Message)
    ensures Aliases(message.(toolCalls := NormalizeToolCalls(message.toolCalls))) == Aliases(message)
  {
    NormalizeToolCallsIdempotent(message.toolCalls);
    NormalizedCallAliases(message.toolCalls);
  }

  lemma {:induction false} NormalizedCallAliases(calls: seq<ToolCall>)
    ensures ToolCallIds(NormalizeToolCalls(calls)) == ToolCallIds(calls)
    ensures ToolCallSignatures(NormalizeToolCalls(calls)) == ToolCallSignatures(calls)
    ensures ToolCallNames(NormalizeToolCalls(calls)) == ToolCallNames(calls)
  {
    if calls != [] {
      assert NormalizeToolCalls(calls)[1..] == NormalizeToolCalls(calls[1..]);
      NormalizedCallAliases(calls[1..]);
    }
  }

  /** Every tool call with an id makes the message findable by that id alone. */
  lemma {:induction false} CallIdIsAlias(calls: seq<ToolCall>, i: nat)
    requires i < |calls| && Printed(calls[i].id) != ""
    ensures CallId(Printed(calls[i].id)) in ToolCallIds(calls)
  {
    if i > 0 {
      CallIdIsAlias(calls[1..], i - 1);
    }
  }

  /** It is a key of the message under its scope and, with a namespace and prior messages, under its turn. */
  lemma CallIdIsKey(message: Message, scope: Scope, namespace: Option<Namespace>, prior: seq<Message>, i: nat)
    requires i < |message.toolCalls| && Printed(message.toolCalls[i].id) != ""
    ensures var id, keys := CallId(Printed(message.toolCalls[i].id)), MessageKeys(message, scope, namespace, prior);
      && Scoped(scope, id) in keys
      && (namespace.Some? && prior != [] ==> Portable(namespace.value, TurnContext(prior), id) in keys)
  {
    var id, aliases := CallId(Printed(message.toolCalls[i].id)), Aliases(message);
    CallIdIsAlias(message.toolCalls, i);
    assert id in aliases;
    var k :| 0 <= k < |aliases| && aliases[k] == id;
    assert ScopedKeys(message, scope)[k] in ScopedKeys(message, scope);
    if namespace.Some? {
      assert PortableKeys(message, namespace, prior)[k] in PortableKeys(message, namespace, prior);
    }
  }

  // ----- Duplicate elimination -----

  function UniqueKeys(keys: seq<Key>): (r: seq<Key>)
    ensures forall k :: k in r <==> k in keys
    ensures forall i, j | 0 <= i < j < |r| :: r[i] != r[j]
    ensures keys != [] ==> r != [] && r[0] == keys[0]
  {
    if keys == [] then [] else
    var last := keys[|keys| - 1];
    var rest := UniqueKeys(keys[..|keys| - 1]);
    assert forall k :: k in keys <==> k in keys[..|keys| - 1] || k == last;
    if last in rest then rest else rest + [last]
  }

  method UniqueKeysLoop(keys: seq<Key>) returns (out: seq<Key>)
    ensures out == UniqueKeys(keys)
  {
    var seen: set<Key> := {};
    out := [];
    for i := 0 to |keys|
      invariant out == UniqueKeys(keys[..i])
      invariant forall k :: k in seen <==> k in out
    {
      assert keys[..i + 1][..i] == keys[..i];
      if keys[i] !in seen {
        seen := seen + {keys[i]};
        out := out + [keys[i]];
      }
    }
    assert keys[..|keys|] == keys;
  }
}
