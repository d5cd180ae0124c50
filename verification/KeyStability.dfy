/** Repair never moves a key: what a message is called in the cache does not depend on what the
    cache holds, on whether repair is on, or on how much history follows. */
module KeyStability {
  import opened Messages
  import opened Keys
  import opened Normalize
  import Thinking

  /** Message `i` of a normalised history is the normalisation of raw message `i` after that prefix. */
  lemma {:induction false} NormalizedAt(backend: Backend, raw: seq<Message>, namespace: Option<Namespace>,
                                        policy: Policy, i: nat)
    requires i < |raw|
    ensures var all := NormalizeAll(backend, raw, namespace, policy);
      var before := NormalizeAll(backend, raw[..i], namespace, policy);
      var one := NormalizeOne(before.backend, raw[i], namespace, policy, before.messages);
      && all.messages[..i] == before.messages
      && all.messages[i] == one.message
      && (i in all.missing <==> one.outcome == Missing)
  {
    hide NormalizeOne;
    var n := |raw| - 1;
    var all, front := NormalizeAll(backend, raw, namespace, policy), NormalizeAll(backend, raw[..n], namespace, policy);
    NormalizeAllStep(backend, raw, namespace, policy, n);
    assert raw[..n + 1] == raw;
    MissingInRange(backend, raw[..n], namespace, policy);
    if i < n {
      assert raw[..n][..i] == raw[..i];
      NormalizedAt(backend, raw[..n], namespace, policy, i);
      assert all.messages[..i] == front.messages[..i];
      assert i in all.missing <==> i in front.missing;
    } else {
      assert all.messages[..i] == front.messages;
    }
  }

  lemma {:induction false} MissingInRange(backend: Backend, raw: seq<Message>, namespace: Option<Namespace>,
                                          policy: Policy)
    ensures forall i | i in NormalizeAll(backend, raw, namespace, policy).missing :: i < |raw|
  {
    if raw != [] {
      MissingInRange(backend, raw[..|raw| - 1], namespace, policy);
    }
  }

  lemma OneIsPlain(backend: Backend, raw: Message, namespace: Option<Namespace>, policy: Policy, prior: seq<Message>)
    ensures CanonicalScopeMessage(NormalizeOne(backend, raw, namespace, policy, prior).message) == Plain(raw)
    ensures NormalizeOne(backend, raw, namespace, policy, prior).message.role == NormalRole(raw.role)
  {
    PlainIsCanonical(raw);
  }

  /** Role and every canonical field of a normalised message are those of its plain form. */
  lemma PlainAt(backend: Backend, raw: seq<Message>, namespace: Option<Namespace>, policy: Policy, i: nat)
    requires i < |raw|
    ensures var m := NormalizeAll(backend, raw, namespace, policy).messages[i];
      && CanonicalScopeMessage(m) == Plain(raw[i])
      && m.role == NormalRole(raw[i].role)
      && m.content == Plain(raw[i]).content
      && m.toolCalls == Plain(raw[i]).toolCalls
  {
    NormalizedAt(backend, raw, namespace, policy, i);
    var before := NormalizeAll(backend, raw[..i], namespace, policy);
    OneIsPlain(before.backend, raw[i], namespace, policy, before.messages);
  }

  /** The canonical form of a normalised history is a function of the raw history alone. */
  lemma CanonicalOfNormalized(backend: Backend, raw: seq<Message>, namespace: Option<Namespace>, policy: Policy)
    ensures Canonical(NormalizeAll(backend, raw, namespace, policy).messages) == PlainAll(raw)
  {
    forall i | 0 <= i < |raw|
      ensures Canonical(NormalizeAll(backend, raw, namespace, policy).messages)[i] == PlainAll(raw)[i]
    {
      PlainAt(backend, raw, namespace, policy, i);
    }
  }

  /** A longer history normalises to an extension, and its prefix has the scope that the shorter
      history had, under any two stores and repair policies. */
  lemma ScopeIsStable(a: Backend, b: Backend, raw: seq<Message>, more: seq<Message>,
                      namespace: Option<Namespace>, p: Policy, q: Policy)
    ensures var short := NormalizeAll(a, raw, namespace, p).messages;
      var long := NormalizeAll(b, raw + more, namespace, q).messages;
      && Canonical(short) <= Canonical(long)
      && ConversationScope(long[..|raw|], namespace) == ConversationScope(short, namespace)
  {
    var long := NormalizeAll(b, raw + more, namespace, q).messages;
    CanonicalOfNormalized(a, raw, namespace, p);
    CanonicalOfNormalized(b, raw + more, namespace, q);
    assert PlainAll(raw) == PlainAll(raw + more)[..|raw|];
    CanonicalPrefix(long, |raw|);
  }

  lemma {:induction false} WithoutSystemOfCanonical(messages: seq<Message>)
    ensures WithoutSystem(Canonical(messages)) == WithoutSystem(messages)
  {
    if messages != [] {
      assert Canonical(messages)[1..] == Canonical(messages[1..]);
      NormalizeToolCallsIdempotent(messages[0].toolCalls);
      WithoutSystemOfCanonical(messages[1..]);
    }
  }

  lemma TurnStartOfCanonical(messages: seq<Message>)
    ensures TurnStart(Canonical(messages)) == TurnStart(messages)
  {
    var canonical, last := Canonical(messages), LastUser(messages);
    LastUserUnique(canonical, last);
    if last >= 0 {
      RunStartUnique(canonical, last, RunStart(messages, last));
    }
  }

  /** The turn context too is a function of the canonical history. */
  lemma TurnOfCanonical(messages: seq<Message>)
    ensures TurnContext(Canonical(messages)) == TurnContext(messages)
  {
    TurnStartOfCanonical(messages);
    var start := TurnStart(messages);
    assert Canonical(messages)[start..] == Canonical(messages[start..]);
    WithoutSystemOfCanonical(messages[start..]);
  }

  /** Keys are therefore decided by canonical histories: two priors that agree canonically give a
      message the same keys, in the same order. */
  lemma KeysOfCanonicalPrior(message: Message, namespace: Option<Namespace>, a: seq<Message>, b: seq<Message>)
    requires Canonical(a) == Canonical(b)
    ensures MessageKeys(message, ConversationScope(a, namespace), namespace, a)
         == MessageKeys(message, ConversationScope(b, namespace), namespace, b)
  {
    TurnOfCanonical(a);
    TurnOfCanonical(b);
    assert |a| == |Canonical(a)| == |b|;
  }

  /** A response and its echo have the same aliases when the echo's content survives stripping. */
  lemma AliasesOfEcho(response: Message, echo: Message)
    requires response.role == Assistant && NormalRole(echo.role) == Assistant
    requires NormalizeToolCalls(echo.toolCalls) == NormalizeToolCalls(response.toolCalls)
    requires Thinking.Strip(echo.content.GetOr("")) == response.content.GetOr("")
    ensures Aliases(Shape(echo)) == Aliases(response)
  {
    AliasesOfNormalizedCalls(response);
    AliasesOfNormalizedCalls(echo);
  }
}
