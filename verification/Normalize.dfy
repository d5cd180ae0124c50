/** Normalising a history left to right, and restoring missing reasoning on the way. */
module Normalize {
  import opened Messages
  import opened Keys
  import opened ReasoningStore
  import opened NormalForm
  import Thinking

  // ----- One message, without its reasoning -----

  function NormalRole(role: Role): Role {
    match role
    case Unset => User
    case Function => Tool
    case _ => role
  }

  predicate HasDefaultContent(role: Role) {
    role == Assistant || role == Tool || role == System || role == User
  }

  function NormalContent(role: Role, content: Option<string>): Option<string> {
    var text := if content.None? && HasDefaultContent(role) then Some("") else content;
    if role == Assistant && text.Some? then Some(Thinking.Strip(text.value)) else text
  }

  function Shape(message: Message): Message {
    var role := NormalRole(message.role);
    message.(role := role,
             content := NormalContent(role, message.content),
             toolCalls := NormalizeToolCalls(message.toolCalls))
  }

  /** Only the fields that the role allows. */
  function FilterFields(message: Message): Message {
    match message.role
    case System => Message(System, message.content, message.name, None, None, [], None)
    case User => Message(User, message.content, message.name, None, None, [], None)
    case Assistant => message.(toolCallId := None)
    case Tool => Message(Tool, message.content, None, message.toolCallId, None, [], None)
    case _ => message
  }

  /** What normalisation makes of a message, reasoning aside. */
  function Plain(message: Message): Message {
    FilterFields(Shape(message)).(reasoning := None)
  }

  function PlainAll(raw: seq<Message>): (r: seq<Message>)
    ensures |r| == |raw|
    ensures forall i | 0 <= i < |raw| :: r[i] == Plain(raw[i])
  {
    seq(|raw|, i requires 0 <= i < |raw| => Plain(raw[i]))
  }

  /** `out` is what normalisation makes of `raw`: the fields that its role allows, an assistant text stripped. */
  ghost predicate IsNormal(raw: Message, policy: Policy, out: Message) {
    HasForm(raw, Thinking.Strip(GivenText(raw)), out) && HasReasoning(raw, policy.keep, policy.repair, out)
  }

  /** Shaping and filtering give a message the form of its role, whatever reasoning is put in between. */
  lemma FilteredHasForm(raw: Message, reasoning: Option<string>)
    ensures HasForm(raw, Thinking.Strip(GivenText(raw)), FilterFields(Shape(raw)))
    ensures raw.role == Assistant ==>
      HasForm(raw, Thinking.Strip(GivenText(raw)), FilterFields(Shape(raw).(reasoning := reasoning)))
  {
    hide Thinking.Strip;
    CallsAreNormalised(raw.toolCalls);
  }

  lemma FilterKeepsReasoning(raw: Message, reasoning: Option<string>)
    ensures raw.role == Assistant ==> FilterFields(Shape(raw).(reasoning := reasoning)).reasoning == reasoning
  {
  }

  lemma PlainIsCanonical(message: Message)
    ensures CanonicalScopeMessage(Plain(message)) == Plain(message)
    ensures CanonicalScopeMessage(FilterFields(Shape(message))) == Plain(message)
  {
    NormalizeToolCallsIdempotent(message.toolCalls);
  }

  // ----- Which assistant messages need reasoning -----

  /** The last tool, user or system message of the history is a tool message. */
  function FollowsTool(prior: seq<Message>): bool {
    if prior == [] then false else
    match prior[|prior| - 1].role
    case Tool => true
    case User => false
    case System => false
    case _ => FollowsTool(prior[..|prior| - 1])
  }

  predicate NeedsReasoning(message: Message, prior: seq<Message>) {
    message.toolCalls != [] || FollowsTool(prior)
  }

  method AssistantNeedsReasoning(message: Message, prior: seq<Message>) returns (needs: bool)
    ensures needs == NeedsReasoning(message, prior)
  {
    if message.toolCalls != [] {
      return true;
    }
    var i := |prior| - 1;
    assert prior[..|prior|] == prior;
    while i >= 0
      invariant -1 <= i < |prior|
      invariant FollowsTool(prior) == FollowsTool(prior[..i + 1])
    {
      var role := prior[i].role;
      assert prior[..i + 1][..i] == prior[..i];
      if role == Tool {
        return true;
      }
      if role == User || role == System {
        return false;
      }
      i := i - 1;
    }
    return false;
  }

  /** A tool message stands at `i`, with no user or system message after it. */
  ghost predicate OpenToolResult(prior: seq<Message>, i: nat) {
    && i < |prior| && prior[i].role == Tool
    && forall j | i < j < |prior| :: prior[j].role != User && prior[j].role != System
  }

  lemma {:induction false} FollowsToolMeaning(prior: seq<Message>)
    ensures FollowsTool(prior) <==> exists i: nat :: OpenToolResult(prior, i)
  {
    if prior != [] {
      var n, before := |prior| - 1, prior[..|prior| - 1];
      FollowsToolMeaning(before);
      if prior[n].role == Tool {
        assert OpenToolResult(prior, n);
      } else if prior[n].role != User && prior[n].role != System {
        assert forall i: nat :: OpenToolResult(before, i) ==> OpenToolResult(prior, i);
        assert forall i: nat :: OpenToolResult(prior, i) ==> OpenToolResult(before, i);
      }
    }
  }

  /** Needing reasoning is decided by the canonical history. */
  lemma {:induction false} FollowsToolOfCanonical(prior: seq<Message>)
    ensures FollowsTool(Canonical(prior)) == FollowsTool(prior)
  {
    if prior != [] {
      CanonicalPrefix(prior, |prior| - 1);
      FollowsToolOfCanonical(prior[..|prior| - 1]);
    }
  }

  // ----- Normalisation with repair -----

  /** The store handed to the normaliser; the pass that computes keys gets none. */
  datatype Backend = NoStore | Backed(env: Env, table: Table)

  function BackendLookup(backend: Backend, message: Message, namespace: Option<Namespace>, prior: seq<Message>)
    : Option<string>
  {
    match backend
    case NoStore => None
    case Backed(env, table) => Lookup(table, message, ConversationScope(prior, namespace), namespace, prior)
  }

  function Backfilled(backend: Backend, message: Message, reasoning: string, namespace: Option<Namespace>,
                      prior: seq<Message>)
    : Backend
  {
    match backend
    case NoStore => NoStore
    case Backed(env, table) => Backed(env, ApplyAll(env, table, BackfillOps(message, reasoning, namespace, prior)))
  }

  datatype Policy = Policy(repair: bool, keep: bool)

  datatype Outcome = Kept | Patched | Missing

  datatype Normalized = Normalized(message: Message, outcome: Outcome, backend: Backend)

  function NormalizeOne(backend: Backend, raw: Message, namespace: Option<Namespace>, policy: Policy,
                        prior: seq<Message>)
    : Normalized
  {
    var message := Shape(raw);
    if message.role != Assistant then
      Normalized(FilterFields(message), Kept, backend)
    else if !policy.keep then
      Normalized(FilterFields(message.(reasoning := None)), Kept, backend)
    else if !policy.repair || message.reasoning.Some? || !NeedsReasoning(message, prior) then
      Normalized(FilterFields(message), Kept, backend)
    else
      var restored := BackendLookup(backend, message, namespace, prior);
      if restored.None? then
        Normalized(FilterFields(message), Missing, backend)
      else
        Normalized(FilterFields(message.(reasoning := restored)), Patched,
                   Backfilled(backend, message, restored.value, namespace, prior))
  }

  datatype History = History(messages: seq<Message>, patched: nat, missing: seq<nat>, backend: Backend)

  function NormalizeAll(backend: Backend, raw: seq<Message>, namespace: Option<Namespace>, policy: Policy): (r: History)
    ensures |r.messages| == |raw|
  {
    if raw == [] then History([], 0, [], backend) else
    var n := |raw| - 1;
    var before := NormalizeAll(backend, raw[..n], namespace, policy);
    var one := NormalizeOne(before.backend, raw[n], namespace, policy, before.messages);
    History(before.messages + [one.message],
            before.patched + (if one.outcome == Patched then 1 else 0),
            before.missing + (if one.outcome == Missing then [n] else []),
            one.backend)
  }

  lemma NormalizeAllStep(backend: Backend, raw: seq<Message>, namespace: Option<Namespace>, policy: Policy, n: nat)
    requires n < |raw|
    ensures var before := NormalizeAll(backend, raw[..n], namespace, policy);
      var one := NormalizeOne(before.backend, raw[n], namespace, policy, before.messages);
      NormalizeAll(backend, raw[..n + 1], namespace, policy)
      == History(before.messages + [one.message],
                 before.patched + (if one.outcome == Patched then 1 else 0),
                 before.missing + (if one.outcome == Missing then [n] else []),
                 one.backend)
  {
    assert raw[..n + 1][..n] == raw[..n];
  }

  /** Only assistant messages make the normaliser write. */
  lemma {:induction false} NoAssistantNoWrite(backend: Backend, raw: seq<Message>, namespace: Option<Namespace>,
                                              policy: Policy)
    requires forall j | 0 <= j < |raw| :: NormalRole(raw[j].role) != Assistant
    ensures NormalizeAll(backend, raw, namespace, policy).backend == backend
  {
    if raw != [] {
      NoAssistantNoWrite(backend, raw[..|raw| - 1], namespace, policy);
    }
  }

  lemma OneIsNormal(backend: Backend, raw: Message, namespace: Option<Namespace>, policy: Policy, prior: seq<Message>)
    ensures IsNormal(raw, policy, NormalizeOne(backend, raw, namespace, policy, prior).message)
  {
    hide Thinking.Strip, FilterFields, HasForm, BackendLookup, NeedsReasoning;
    FilteredHasForm(raw, None);
    FilteredHasForm(raw, BackendLookup(backend, Shape(raw), namespace, prior));
    FilterKeepsReasoning(raw, None);
    FilterKeepsReasoning(raw, BackendLookup(backend, Shape(raw), namespace, prior));
    FilterKeepsReasoning(raw, raw.reasoning);
    assert Shape(raw).(reasoning := raw.reasoning) == Shape(raw);
  }

  /** Every message of a normalised history is the normal form of the raw message in its place. */
  lemma {:induction false} AllAreNormal(backend: Backend, raw: seq<Message>, namespace: Option<Namespace>,
                                        policy: Policy)
    ensures forall i | 0 <= i < |raw| ::
      IsNormal(raw[i], policy, NormalizeAll(backend, raw, namespace, policy).messages[i])
  {
    hide NormalizeOne, IsNormal;
    if raw != [] {
      var n := |raw| - 1;
      AllAreNormal(backend, raw[..n], namespace, policy);
      var before := NormalizeAll(backend, raw[..n], namespace, policy);
      OneIsNormal(before.backend, raw[n], namespace, policy, before.messages);
    }
  }

  function BackendOf(store: Store?): Backend
    reads store
  {
    if store == null then NoStore else Backed(store.env, store.State())
  }

  method NormalizeMessage(store: Store?, raw: Message, namespace: Option<Namespace>, policy: Policy,
                          prior: seq<Message>)
    returns (message: Message, outcome: Outcome)
    modifies store
    ensures Normalized(message, outcome, BackendOf(store))
         == NormalizeOne(old(BackendOf(store)), raw, namespace, policy, prior)
    ensures IsNormal(raw, policy, message)
  {
    message, outcome := Shape(raw), Kept;
    if message.role == Assistant {
      if !policy.keep {
        message := message.(reasoning := None);
      } else if policy.repair && message.reasoning.None? {
        var needs := AssistantNeedsReasoning(message, prior);
        if needs {
          outcome := Missing;
          if store != null {
            var scope := ConversationScope(prior, namespace);
            var restored := store.LookupForMessage(message, scope, namespace, prior);
            if restored.Some? {
              var _ := store.BackfillPortableAliases(message, restored.value, namespace, prior);
              message, outcome := message.(reasoning := restored), Patched;
            }
          }
        }
      }
    }
    message := FilterFields(message);
    OneIsNormal(old(BackendOf(store)), raw, namespace, policy, prior);
  }

  lemma NothingToNormalize(backend: Backend, namespace: Option<Namespace>, policy: Policy)
    ensures NormalizeAll(backend, [], namespace, policy) == History([], 0, [], backend)
  {
  }

  method NormalizeMessages(store: Store?, raw: seq<Message>, namespace: Option<Namespace>, policy: Policy)
    returns (messages: seq<Message>, patched: nat, missing: seq<nat>)
    modifies store
    ensures History(messages, patched, missing, BackendOf(store))
         == NormalizeAll(old(BackendOf(store)), raw, namespace, policy)
    ensures |messages| == |raw| && forall i | 0 <= i < |raw| :: IsNormal(raw[i], policy, messages[i])
  {
    hide NormalizeOne, NormalizeAll, IsNormal;
    messages, patched, missing := [], 0, [];
    NothingToNormalize(old(BackendOf(store)), namespace, policy);
    for i := 0 to |raw|
      invariant History(messages, patched, missing, BackendOf(store))
             == NormalizeAll(old(BackendOf(store)), raw[..i], namespace, policy)
    {
      NormalizeAllStep(old(BackendOf(store)), raw, namespace, policy, i);
      var message, outcome := NormalizeMessage(store, raw[i], namespace, policy, messages);
      messages := messages + [message];
      if outcome == Patched {
        patched := patched + 1;
      }
      if outcome == Missing {
        missing := missing + [|messages| - 1];
      }
    }
    assert raw[..|raw|] == raw;
    AllAreNormal(old(BackendOf(store)), raw, namespace, policy);
  }
}
