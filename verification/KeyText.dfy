/** The texts behind the structured keys: the cache stores a key as a text with digests of canonical
    JSON in it, and two texts are equal exactly when the structured keys are, as long as the digest
    does not collide on what the two keys digest. */
module KeyText {
  import opened Messages
  import opened JsonCanonical
  import opened Keys
  import JsonDecoder
  import Prepare

  type Digest = string -> string

  /** Sha256JSON and its kin give 64 characters. */
  ghost predicate FixedLength(digest: Digest) {
    forall text :: |digest(text)| == 64
  }

  ghost predicate NoCollision(digest: Digest, texts: set<string>) {
    forall a, b | a in texts && b in texts && digest(a) == digest(b) :: a == b
  }

  // ----- Objects with optional members -----

  type Fields = map<string, Json>

  function Add(fields: Fields, key: string, value: Option<Json>): (r: Fields)
    ensures forall k | k != key :: k in r <==> k in fields
    ensures forall k | k != key && k in fields :: r[k] == fields[k]
    ensures value.Some? ==> key in r && r[key] == value.value
    ensures value.None? ==> r == fields
  {
    if value.None? then fields else fields[key := value.value]
  }

  function OptionalText(value: Option<string>): Option<Json> {
    if value.None? then None else Some(Text(value.value))
  }

  /** The id of a normalised call is absent or a string. */
  function IdText(id: Field): Option<Json> {
    if id.Given? then Some(Text(id.text)) else None
  }

  // ----- Payloads -----

  function RoleName(role: Role): string {
    match role
    case System => "system"
    case User => "user"
    case Assistant => "assistant"
    case Tool => "tool"
    case Function => "function"
    case Unset => ""
    case Other(name) => name
  }

  /** `Other` is for the roles that have no constructor of their own. */
  predicate ProperRole(role: Role) {
    role.Other? ==> role.name !in {"system", "user", "assistant", "tool", "function", ""}
  }

  function CallJson(call: ToolCall): Json {
    var function_ := map["name" := Text(call.name.GetOr("")), "arguments" := Text(call.arguments.GetOr(""))];
    Object(Add(map["type" := Text(call.kind.GetOr("")), "function" := Object(function_)], "id", IdText(call.id)))
  }

  function CallsJson(calls: seq<ToolCall>): Json {
    Array(seq(|calls|, i requires 0 <= i < |calls| => CallJson(calls[i])))
  }

  function MessageFields(message: Message): Fields {
    var role := map["role" := Text(RoleName(message.role))];
    var content := Add(role, "content", OptionalText(message.content));
    var name := Add(content, "name", OptionalText(message.name));
    var id := Add(name, "tool_call_id", OptionalText(message.toolCallId));
    var prefix := Add(id, "prefix", if message.prefix.None? then None else Some(Bool(message.prefix.value)));
    Add(prefix, "tool_calls", if message.toolCalls == [] then None else Some(CallsJson(message.toolCalls)))
  }

  function MessagesJson(messages: seq<Message>): Json {
    Array(seq(|messages|, i requires 0 <= i < |messages| => Object(MessageFields(messages[i]))))
  }

  /** A list that is nil when empty. */
  function NilOr(list: Json): Json
    requires list.Array?
  {
    if list.items == [] then Null else list
  }

  /** System messages are digested with a content member even when it is null. */
  function SystemFields(message: Message): Fields {
    Add(map["role" := Text("system"), "content" := if message.content.None? then Null else Text(message.content.value)],
        "name", OptionalText(message.name))
  }

  function SystemsJson(systems: seq<Message>): Json {
    Array(seq(|systems|, i requires 0 <= i < |systems| => Object(SystemFields(systems[i]))))
  }

  function ContextJson(context: RuntimeContext): Json {
    Object(map["system_messages" := NilOr(SystemsJson(context.systems)),
               "tools" := Array(context.tools),
               "tool_choice" := context.toolChoice])
  }

  ghost function AuthorizationHash(digest: Digest, authorization: string): string {
    if authorization == "" then "" else digest(authorization)
  }

  ghost function NamespaceFields(digest: Digest, n: Namespace): Fields {
    map["v" := Text("v3"),
        "base_url" := Text(n.baseUrl),
        "model" := Text(n.model),
        "thinking" := Object(map["type" := Text(if n.thinking then "enabled" else "disabled")]),
        "reasoning_effort" := n.effort,
        "authorization_hash" := Text(AuthorizationHash(digest, n.authorization)),
        "user_id" := Text(n.userId),
        "runtime_context_hash" := Text(digest(Encode(ContextJson(n.context))))]
  }

  ghost function NamespaceText(digest: Digest, n: Namespace): string {
    Encode(Object(NamespaceFields(digest, n)))
  }

  ghost function ScopeJson(digest: Digest, scope: Scope): Json {
    if scope.namespace.None? then MessagesJson(scope.messages)
    else Object(map["namespace" := Text(digest(NamespaceText(digest, scope.namespace.value))),
                    "messages" := MessagesJson(scope.messages)])
  }

  function SignatureJson(content: string, calls: seq<ToolCall>): Json {
    Object(map["content" := Text(content), "tool_calls" := NilOr(CallsJson(calls))])
  }

  // ----- Payloads determine what they are made of -----

  predicate NormalCall(call: ToolCall) {
    !call.id.Nil? && call.kind.Some? && call.name.Some? && call.arguments.Some?
  }

  ghost predicate NormalCalls(calls: seq<ToolCall>) {
    forall i | 0 <= i < |calls| :: NormalCall(calls[i])
  }

  ghost predicate Scopable(message: Message) {
    message.reasoning.None? && ProperRole(message.role) && NormalCalls(message.toolCalls)
  }

  ghost predicate AllScopable(messages: seq<Message>) {
    forall i | 0 <= i < |messages| :: Scopable(messages[i])
  }

  lemma SameFields(a: Fields, b: Fields, key: string)
    requires a == b
    ensures key in a <==> key in b
    ensures key in a ==> a[key] == b[key]
  {
  }

  lemma CallIsDetermined(a: ToolCall, b: ToolCall)
    requires NormalCall(a) && NormalCall(b) && CallJson(a) == CallJson(b)
    ensures a == b
  {
    var x, y := CallJson(a).fields, CallJson(b).fields;
    SameFields(x, y, "type");
    SameFields(x, y, "function");
    SameFields(x, y, "id");
    SameFields(x["function"].fields, y["function"].fields, "name");
    SameFields(x["function"].fields, y["function"].fields, "arguments");
  }

  lemma CallsAreDetermined(a: seq<ToolCall>, b: seq<ToolCall>)
    requires NormalCalls(a) && NormalCalls(b) && CallsJson(a) == CallsJson(b)
    ensures a == b
  {
    hide CallJson;
    var x, y := CallsJson(a).items, CallsJson(b).items;
    assert |a| == |x| == |y| == |b|;
    forall i | 0 <= i < |a|
      ensures a[i] == b[i]
    {
      assert x[i] == CallJson(a[i]) && y[i] == CallJson(b[i]);
      CallIsDetermined(a[i], b[i]);
    }
  }

  lemma RoleIsDetermined(a: Role, b: Role)
    requires ProperRole(a) && ProperRole(b) && RoleName(a) == RoleName(b)
    ensures a == b
  {
  }

  /** Reading a member back through later additions. */
  lemma MembersOf(message: Message)
    ensures var f := MessageFields(message);
      && "role" in f && f["role"] == Text(RoleName(message.role))
      && ("content" in f <==> message.content.Some?)
          && (message.content.Some? ==> f["content"] == Text(message.content.value))
      && ("name" in f <==> message.name.Some?) && (message.name.Some? ==> f["name"] == Text(message.name.value))
  {
  }

  lemma OtherMembersOf(message: Message)
    ensures var f := MessageFields(message);
      && ("tool_call_id" in f <==> message.toolCallId.Some?)
      && (message.toolCallId.Some? ==> f["tool_call_id"] == Text(message.toolCallId.value))
      && ("prefix" in f <==> message.prefix.Some?)
      && (message.prefix.Some? ==> f["prefix"] == Bool(message.prefix.value))
      && ("tool_calls" in f <==> message.toolCalls != [])
      && (message.toolCalls != [] ==> f["tool_calls"] == CallsJson(message.toolCalls))
  {
  }

  lemma MessageIsDetermined(a: Message, b: Message)
    requires Scopable(a) && Scopable(b) && MessageFields(a) == MessageFields(b)
    ensures a == b
  {
    hide MessageFields, RoleName, ProperRole, NormalCalls, CallsJson;
    MembersOf(a);
    MembersOf(b);
    OtherMembersOf(a);
    OtherMembersOf(b);
    RoleIsDetermined(a.role, b.role);
    if a.toolCalls != [] {
      CallsAreDetermined(a.toolCalls, b.toolCalls);
    }
  }

  lemma MessagesAreDetermined(a: seq<Message>, b: seq<Message>)
    requires AllScopable(a) && AllScopable(b) && MessagesJson(a) == MessagesJson(b)
    ensures a == b
  {
    hide MessageFields, Scopable;
    var x, y := MessagesJson(a).items, MessagesJson(b).items;
    assert |a| == |x| == |y| == |b|;
    forall i | 0 <= i < |a|
      ensures a[i] == b[i]
    {
      assert x[i] == Object(MessageFields(a[i])) && y[i] == Object(MessageFields(b[i]));
      MessageIsDetermined(a[i], b[i]);
    }
  }

  /** The members that RuntimeContextHash keeps of a system message. */
  ghost predicate IsSystemEntry(message: Message) {
    message == Message(System, message.content, message.name, None, None, [], None)
  }

  ghost predicate ProperContext(context: RuntimeContext) {
    && (forall i | 0 <= i < |context.systems| :: IsSystemEntry(context.systems[i]))
    && JsonDecoder.NumbersAreTokens(Array(context.tools)) && JsonDecoder.NumbersAreTokens(context.toolChoice)
  }

  ghost predicate ProperNamespace(n: Namespace) {
    ProperContext(n.context) && JsonDecoder.NumbersAreTokens(n.effort)
  }

  lemma SystemIsDetermined(a: Message, b: Message)
    requires IsSystemEntry(a) && IsSystemEntry(b) && SystemFields(a) == SystemFields(b)
    ensures a == b
  {
    var x, y := SystemFields(a), SystemFields(b);
    SameFields(x, y, "content");
    SameFields(x, y, "name");
  }

  lemma SystemsAreDetermined(a: seq<Message>, b: seq<Message>)
    requires forall i | 0 <= i < |a| :: IsSystemEntry(a[i])
    requires forall i | 0 <= i < |b| :: IsSystemEntry(b[i])
    requires NilOr(SystemsJson(a)) == NilOr(SystemsJson(b))
    ensures a == b
  {
    hide SystemFields, IsSystemEntry;
    var x, y := SystemsJson(a).items, SystemsJson(b).items;
    assert |a| == |x| && |b| == |y|;
    assert x == y;
    forall i | 0 <= i < |a|
      ensures a[i] == b[i]
    {
      assert x[i] == Object(SystemFields(a[i])) && y[i] == Object(SystemFields(b[i]));
      SystemIsDetermined(a[i], b[i]);
    }
  }

  lemma ContextIsDetermined(a: RuntimeContext, b: RuntimeContext)
    requires ProperContext(a) && ProperContext(b) && ContextJson(a) == ContextJson(b)
    ensures a == b
  {
    hide NilOr, SystemsJson, IsSystemEntry, JsonDecoder.NumbersAreTokens;
    var x, y := ContextJson(a).fields, ContextJson(b).fields;
    SameFields(x, y, "system_messages");
    SameFields(x, y, "tools");
    SameFields(x, y, "tool_choice");
    SystemsAreDetermined(a.systems, b.systems);
  }

  // ----- Every payload can be decoded -----

  lemma CallsDecode(calls: seq<ToolCall>)
    ensures forall i | 0 <= i < |calls| :: JsonDecoder.NumbersAreTokens(CallJson(calls[i]))
    ensures JsonDecoder.NumbersAreTokens(CallsJson(calls))
  {
    forall i | 0 <= i < |calls|
      ensures JsonDecoder.NumbersAreTokens(CallJson(calls[i]))
    {
      CallDecodes(calls[i]);
    }
    hide CallJson;
  }

  lemma CallDecodes(call: ToolCall)
    ensures JsonDecoder.NumbersAreTokens(CallJson(call))
  {
    var function_ := CallJson(call).fields["function"];
    assert JsonDecoder.NumbersAreTokens(function_);
  }

  lemma AddDecodes(fields: Fields, key: string, value: Option<Json>)
    requires JsonDecoder.NumbersAreTokens(Object(fields))
    requires value.Some? ==> JsonDecoder.NumbersAreTokens(value.value)
    ensures JsonDecoder.NumbersAreTokens(Object(Add(fields, key, value)))
  {
  }

  lemma MessageDecodes(message: Message)
    ensures JsonDecoder.NumbersAreTokens(Object(MessageFields(message)))
  {
    hide Add, CallsJson;
    CallsDecode(message.toolCalls);
    var role := map["role" := Text(RoleName(message.role))];
    AddDecodes(role, "content", OptionalText(message.content));
    var content := Add(role, "content", OptionalText(message.content));
    AddDecodes(content, "name", OptionalText(message.name));
    var name := Add(content, "name", OptionalText(message.name));
    AddDecodes(name, "tool_call_id", OptionalText(message.toolCallId));
    var id := Add(name, "tool_call_id", OptionalText(message.toolCallId));
    AddDecodes(id, "prefix", if message.prefix.None? then None else Some(Bool(message.prefix.value)));
    var prefix := Add(id, "prefix", if message.prefix.None? then None else Some(Bool(message.prefix.value)));
    AddDecodes(prefix, "tool_calls", if message.toolCalls == [] then None else Some(CallsJson(message.toolCalls)));
  }

  lemma MessagesDecode(messages: seq<Message>)
    ensures JsonDecoder.NumbersAreTokens(MessagesJson(messages))
  {
    hide MessageFields;
    forall i | 0 <= i < |messages|
      ensures JsonDecoder.NumbersAreTokens(Object(MessageFields(messages[i])))
    {
      MessageDecodes(messages[i]);
    }
  }

  lemma ContextDecodes(context: RuntimeContext)
    requires ProperContext(context)
    ensures JsonDecoder.NumbersAreTokens(ContextJson(context))
  {
    hide IsSystemEntry;
    forall i | 0 <= i < |context.systems|
      ensures JsonDecoder.NumbersAreTokens(Object(SystemFields(context.systems[i])))
    {
    }
    assert JsonDecoder.NumbersAreTokens(NilOr(SystemsJson(context.systems))) by { hide SystemFields; }
  }

  lemma NamespaceDecodes(digest: Digest, n: Namespace)
    requires JsonDecoder.NumbersAreTokens(n.effort)
    ensures JsonDecoder.NumbersAreTokens(Object(NamespaceFields(digest, n)))
  {
    hide AuthorizationHash, ContextJson, Encode;
    var thinking := Object(map["type" := Text(if n.thinking then "enabled" else "disabled")]);
    assert JsonDecoder.NumbersAreTokens(thinking);
  }

  // ----- Digested texts -----

  ghost function NamespaceTexts(digest: Digest, n: Namespace): set<string> {
    {NamespaceText(digest, n), Encode(ContextJson(n.context)), n.authorization}
  }

  lemma NamespaceIsDetermined(digest: Digest, a: Namespace, b: Namespace)
    requires FixedLength(digest) && NoCollision(digest, NamespaceTexts(digest, a) + NamespaceTexts(digest, b))
    requires ProperNamespace(a) && ProperNamespace(b)
    requires NamespaceText(digest, a) == NamespaceText(digest, b)
    ensures a == b
  {
    hide Encode, ContextJson, ProperContext, NoCollision, FixedLength, NamespaceFields, NamespaceTexts,
      AuthorizationHash;
    NamespaceDecodes(digest, a);
    NamespaceDecodes(digest, b);
    JsonDecoder.EncodingIsUnambiguous(Object(NamespaceFields(digest, a)), Object(NamespaceFields(digest, b)));
    NamespaceFieldsAgree(digest, a, b);
    ContextDecodes(a.context);
    ContextDecodes(b.context);
    HashesAgree(digest, a, b);
    JsonDecoder.EncodingIsUnambiguous(ContextJson(a.context), ContextJson(b.context));
    ContextIsDetermined(a.context, b.context);
  }

  lemma NamespaceFieldsAgree(digest: Digest, a: Namespace, b: Namespace)
    requires NamespaceFields(digest, a) == NamespaceFields(digest, b)
    ensures a.baseUrl == b.baseUrl && a.model == b.model && a.thinking == b.thinking && a.effort == b.effort
      && a.userId == b.userId
    ensures AuthorizationHash(digest, a.authorization) == AuthorizationHash(digest, b.authorization)
    ensures digest(Encode(ContextJson(a.context))) == digest(Encode(ContextJson(b.context)))
  {
    hide Encode, ContextJson, AuthorizationHash;
    var x, y := NamespaceFields(digest, a), NamespaceFields(digest, b);
    SameFields(x, y, "base_url");
    SameFields(x, y, "model");
    SameFields(x, y, "thinking");
    SameFields(x["thinking"].fields, y["thinking"].fields, "type");
    SameFields(x, y, "reasoning_effort");
    SameFields(x, y, "authorization_hash");
    SameFields(x, y, "user_id");
    SameFields(x, y, "runtime_context_hash");
  }

  lemma HashesAgree(digest: Digest, a: Namespace, b: Namespace)
    requires FixedLength(digest) && NoCollision(digest, NamespaceTexts(digest, a) + NamespaceTexts(digest, b))
    requires AuthorizationHash(digest, a.authorization) == AuthorizationHash(digest, b.authorization)
    requires digest(Encode(ContextJson(a.context))) == digest(Encode(ContextJson(b.context)))
    ensures a.authorization == b.authorization
    ensures Encode(ContextJson(a.context)) == Encode(ContextJson(b.context))
  {
    hide Encode, ContextJson, NamespaceText;
    assert |digest(a.authorization)| == 64 && |digest(b.authorization)| == 64;
  }

  // ----- Scopes, turns and aliases -----

  ghost function TurnText(turn: seq<Message>): string {
    Encode(NilOr(MessagesJson(turn)))
  }

  ghost function ScopeText(digest: Digest, scope: Scope): string {
    Encode(ScopeJson(digest, scope))
  }

  ghost predicate ProperScope(scope: Scope) {
    AllScopable(scope.messages) && (scope.namespace.Some? ==> ProperNamespace(scope.namespace.value))
  }

  ghost function ScopeTexts(digest: Digest, scope: Scope): set<string> {
    {ScopeText(digest, scope)} + if scope.namespace.Some? then NamespaceTexts(digest, scope.namespace.value) else {}
  }

  lemma ScopeDecodes(digest: Digest, scope: Scope)
    ensures JsonDecoder.NumbersAreTokens(ScopeJson(digest, scope))
  {
    hide NamespaceText, MessagesJson;
    MessagesDecode(scope.messages);
  }

  lemma ScopeIsDetermined(digest: Digest, a: Scope, b: Scope)
    requires FixedLength(digest) && NoCollision(digest, ScopeTexts(digest, a) + ScopeTexts(digest, b))
    requires ProperScope(a) && ProperScope(b) && ScopeText(digest, a) == ScopeText(digest, b)
    ensures a == b
  {
    hide Encode, NamespaceText, ProperNamespace, AllScopable, FixedLength;
    ScopeDecodes(digest, a);
    ScopeDecodes(digest, b);
    JsonDecoder.EncodingIsUnambiguous(ScopeJson(digest, a), ScopeJson(digest, b));
    if a.namespace.None? || b.namespace.None? {
      MessagesAreDetermined(a.messages, b.messages);
    } else {
      var x, y := ScopeJson(digest, a).fields, ScopeJson(digest, b).fields;
      SameFields(x, y, "namespace");
      SameFields(x, y, "messages");
      MessagesAreDetermined(a.messages, b.messages);
      assert NamespaceText(digest, a.namespace.value) in ScopeTexts(digest, a);
      assert NamespaceText(digest, b.namespace.value) in ScopeTexts(digest, b);
      NamespaceIsDetermined(digest, a.namespace.value, b.namespace.value);
    }
  }

  lemma TurnIsDetermined(a: seq<Message>, b: seq<Message>)
    requires AllScopable(a) && AllScopable(b) && TurnText(a) == TurnText(b)
    ensures a == b
  {
    hide Encode, AllScopable, MessageFields;
    MessagesDecode(a);
    MessagesDecode(b);
    JsonDecoder.EncodingIsUnambiguous(NilOr(MessagesJson(a)), NilOr(MessagesJson(b)));
    MessagesAreDetermined(a, b);
  }

  ghost predicate ProperAlias(alias: Alias) {
    match alias
    case Signature(_, calls) => NormalCalls(calls)
    case CallSignature(call) => NormalCall(call)
    case _ => true
  }

  ghost function AliasTexts(alias: Alias): set<string> {
    match alias
    case Signature(content, calls) => {Encode(SignatureJson(content, calls))}
    case CallSignature(call) => {Encode(CallJson(call))}
    case _ => {}
  }

  /** The tail of a key text. */
  ghost function AliasTail(digest: Digest, alias: Alias): string {
    match alias
    case Signature(content, calls) => ":signature:" + digest(Encode(SignatureJson(content, calls)))
    case CallId(id) => ":tool_call:" + id
    case CallSignature(call) => ":tool_call_signature:" + digest(Encode(CallJson(call)))
    case CallName(name) => ":tool_name:" + name
  }

  lemma SignatureIsDetermined(content: string, calls: seq<ToolCall>, content': string, calls': seq<ToolCall>)
    requires NormalCalls(calls) && NormalCalls(calls')
    requires Encode(SignatureJson(content, calls)) == Encode(SignatureJson(content', calls'))
    ensures content == content' && calls == calls'
  {
    hide Encode, CallJson, NormalCalls;
    CallsDecode(calls);
    CallsDecode(calls');
    JsonDecoder.EncodingIsUnambiguous(SignatureJson(content, calls), SignatureJson(content', calls'));
    var x, y := SignatureJson(content, calls).fields, SignatureJson(content', calls').fields;
    SameFields(x, y, "content");
    SameFields(x, y, "tool_calls");
    CallsAreDetermined(calls, calls');
  }

  lemma SameTail(head: string, x: string, y: string)
    requires head + x == head + y
    ensures x == y
  {
    assert (head + x)[|head|..] == x && (head + y)[|head|..] == y;
  }

  /** The four kinds of alias differ at characters 1, 6 and 10. */
  lemma TailsDiffer(digest: Digest, a: Alias)
    ensures var s := AliasTail(digest, a);
      && |s| > 10
      && (a.Signature? <==> s[1] == 's')
      && (a.CallName? <==> s[1] == 't' && s[6] == 'n')
      && (a.CallId? <==> s[1] == 't' && s[6] == 'c' && s[10] == ':')
      && (a.CallSignature? <==> s[1] == 't' && s[6] == 'c' && s[10] == '_')
  {
    hide Encode, CallJson, SignatureJson;
  }

  lemma AliasIsDetermined(digest: Digest, a: Alias, b: Alias)
    requires NoCollision(digest, AliasTexts(a) + AliasTexts(b)) && ProperAlias(a) && ProperAlias(b)
    requires AliasTail(digest, a) == AliasTail(digest, b)
    ensures a == b
  {
    hide Encode, CallJson, SignatureJson, NormalCalls;
    TailsDiffer(digest, a);
    TailsDiffer(digest, b);
    match a
    case Signature(content, calls) =>
      SameTail(":signature:", digest(Encode(SignatureJson(content, calls))),
               digest(Encode(SignatureJson(b.content, b.calls))));
      SignatureIsDetermined(content, calls, b.content, b.calls);
    case CallId(id) =>
      SameTail(":tool_call:", id, b.id);
    case CallSignature(call) =>
      SameTail(":tool_call_signature:", digest(Encode(CallJson(call))), digest(Encode(CallJson(b.call))));
      CallDecodes(call);
      CallDecodes(b.call);
      JsonDecoder.EncodingIsUnambiguous(CallJson(call), CallJson(b.call));
      CallIsDetermined(call, b.call);
    case CallName(name) =>
      SameTail(":tool_name:", name, b.name);
  }

  // ----- Keys -----

  /** The text under which the store keeps a key. */
  ghost function KeyText(digest: Digest, key: Key): string {
    match key
    case Scoped(scope, alias) => "scope:" + (digest(ScopeText(digest, scope)) + AliasTail(digest, alias))
    case Portable(namespace, turn, alias) =>
      "namespace:" + (digest(NamespaceText(digest, namespace))
                      + (":turn:" + (digest(TurnText(turn)) + AliasTail(digest, alias))))
  }

  ghost predicate ProperKey(key: Key) {
    match key
    case Scoped(scope, alias) => ProperScope(scope) && ProperAlias(alias)
    case Portable(namespace, turn, alias) => ProperNamespace(namespace) && AllScopable(turn) && ProperAlias(alias)
  }

  /** Everything that is digested for a key. */
  ghost function DigestedTexts(digest: Digest, key: Key): set<string> {
    match key
    case Scoped(scope, alias) => ScopeTexts(digest, scope) + AliasTexts(alias)
    case Portable(namespace, turn, alias) => NamespaceTexts(digest, namespace) + {TurnText(turn)} + AliasTexts(alias)
  }

  /** Texts that begin with fields of one length agree field by field. */
  lemma SplitAt(a: string, x: string, b: string, y: string)
    requires |a| == |b| && a + x == b + y
    ensures a == b && x == y
  {
    assert (a + x)[..|a|] == a && (b + y)[..|b|] == b;
    assert (a + x)[|a|..] == x && (b + y)[|b|..] == y;
  }

  lemma KindsDiffer(digest: Digest, key: Key)
    ensures var s := KeyText(digest, key); s != "" && (key.Scoped? <==> s[0] == 's')
  {
    hide AliasTail, ScopeText, NamespaceText, TurnText;
  }

  lemma NoCollisionWithin(digest: Digest, texts: set<string>, some: set<string>)
    requires NoCollision(digest, texts) && some <= texts
    ensures NoCollision(digest, some)
  {
  }

  lemma ScopedTextIsDetermined(digest: Digest, a: Key, b: Key)
    requires a.Scoped? && b.Scoped? && FixedLength(digest)
    requires ProperKey(a) && ProperKey(b) && NoCollision(digest, DigestedTexts(digest, a) + DigestedTexts(digest, b))
    requires KeyText(digest, a) == KeyText(digest, b)
    ensures a == b
  {
    hide AliasTail, ScopeText, NoCollision, ProperScope, ProperAlias, AliasTexts;
    var texts := DigestedTexts(digest, a) + DigestedTexts(digest, b);
    var p, q := digest(ScopeText(digest, a.scope)), digest(ScopeText(digest, b.scope));
    SameTail("scope:", p + AliasTail(digest, a.scopedAlias), q + AliasTail(digest, b.scopedAlias));
    SplitAt(p, AliasTail(digest, a.scopedAlias), q, AliasTail(digest, b.scopedAlias));
    SameDigest(digest, texts, ScopeText(digest, a.scope), ScopeText(digest, b.scope));
    NoCollisionWithin(digest, texts, ScopeTexts(digest, a.scope) + ScopeTexts(digest, b.scope));
    NoCollisionWithin(digest, texts, AliasTexts(a.scopedAlias) + AliasTexts(b.scopedAlias));
    ScopeIsDetermined(digest, a.scope, b.scope);
    AliasIsDetermined(digest, a.scopedAlias, b.scopedAlias);
  }

  lemma SameDigest(digest: Digest, texts: set<string>, x: string, y: string)
    requires NoCollision(digest, texts) && x in texts && y in texts && digest(x) == digest(y)
    ensures x == y
  {
  }

  lemma PortableTextIsDetermined(digest: Digest, a: Key, b: Key)
    requires a.Portable? && b.Portable? && FixedLength(digest)
    requires ProperKey(a) && ProperKey(b) && NoCollision(digest, DigestedTexts(digest, a) + DigestedTexts(digest, b))
    requires KeyText(digest, a) == KeyText(digest, b)
    ensures a == b
  {
    hide AliasTail, NamespaceText, TurnText, NoCollision, ProperNamespace, AllScopable, ProperAlias, AliasTexts;
    var texts := DigestedTexts(digest, a) + DigestedTexts(digest, b);
    var p, q := NamespaceText(digest, a.namespace), NamespaceText(digest, b.namespace);
    var t, u := TurnText(a.turn), TurnText(b.turn);
    var x, y := AliasTail(digest, a.portableAlias), AliasTail(digest, b.portableAlias);
    SameTail("namespace:", digest(p) + (":turn:" + (digest(t) + x)), digest(q) + (":turn:" + (digest(u) + y)));
    SplitAt(digest(p), ":turn:" + (digest(t) + x), digest(q), ":turn:" + (digest(u) + y));
    SameTail(":turn:", digest(t) + x, digest(u) + y);
    SplitAt(digest(t), x, digest(u), y);
    SameDigest(digest, texts, p, q);
    SameDigest(digest, texts, t, u);
    NoCollisionWithin(digest, texts, NamespaceTexts(digest, a.namespace) + NamespaceTexts(digest, b.namespace));
    NoCollisionWithin(digest, texts, AliasTexts(a.portableAlias) + AliasTexts(b.portableAlias));
    NamespaceIsDetermined(digest, a.namespace, b.namespace);
    TurnIsDetermined(a.turn, b.turn);
    AliasIsDetermined(digest, a.portableAlias, b.portableAlias);
  }

  /** Two keys have the same text exactly when they are equal, unless the digest collides on something
      that one of them digests. */
  lemma KeyTextsAreFaithful(digest: Digest, a: Key, b: Key)
    requires FixedLength(digest) && NoCollision(digest, DigestedTexts(digest, a) + DigestedTexts(digest, b))
    requires ProperKey(a) && ProperKey(b)
    ensures KeyText(digest, a) == KeyText(digest, b) <==> a == b
  {
    hide KeyText, DigestedTexts, ProperKey, FixedLength, NoCollision;
    if KeyText(digest, a) == KeyText(digest, b) {
      KindsDiffer(digest, a);
      KindsDiffer(digest, b);
      if a.Scoped? {
        ScopedTextIsDetermined(digest, a, b);
      } else {
        PortableTextIsDetermined(digest, a, b);
      }
    }
  }

  // ----- The keys in use are proper -----

  lemma CanonicalMessageIsScopable(message: Message)
    requires ProperRole(message.role)
    ensures Scopable(CanonicalScopeMessage(message))
  {
  }

  ghost predicate ProperRoles(messages: seq<Message>) {
    forall i | 0 <= i < |messages| :: ProperRole(messages[i].role)
  }

  lemma CanonicalIsScopable(messages: seq<Message>)
    requires ProperRoles(messages)
    ensures AllScopable(Canonical(messages))
  {
    hide CanonicalScopeMessage, Scopable, ProperRole;
    forall i | 0 <= i < |messages|
      ensures Scopable(Canonical(messages)[i])
    {
      CanonicalMessageIsScopable(messages[i]);
    }
  }

  lemma {:induction false} TurnIsScopable(messages: seq<Message>)
    requires ProperRoles(messages)
    ensures AllScopable(WithoutSystem(messages))
  {
    hide CanonicalScopeMessage, Scopable, ProperRole;
    if messages != [] {
      TurnIsScopable(messages[1..]);
      CanonicalMessageIsScopable(messages[0]);
    }
  }

  lemma {:induction false} AliasesAreProper(message: Message)
    ensures forall i | 0 <= i < |Aliases(message)| :: ProperAlias(Aliases(message)[i])
  {
    CallAliasesAreProper(message.toolCalls);
  }

  lemma {:induction false} CallAliasesAreProper(calls: seq<ToolCall>)
    ensures forall a | a in ToolCallIds(calls) :: ProperAlias(a)
    ensures forall a | a in ToolCallSignatures(calls) :: ProperAlias(a)
    ensures forall a | a in ToolCallNames(calls) :: ProperAlias(a)
  {
    if calls != [] {
      CallAliasesAreProper(calls[1..]);
    }
  }

  /** Every key that recording and lookup use has a faithful text. */
  lemma MessageKeysAreProper(message: Message, prior: seq<Message>, namespace: Option<Namespace>, key: Key)
    requires ProperRoles(prior) && (namespace.Some? ==> ProperNamespace(namespace.value))
    requires key in MessageKeys(message, ConversationScope(prior, namespace), namespace, prior)
    ensures ProperKey(key)
  {
    hide ProperNamespace, Aliases, ProperAlias, ProperRole, AllScopable, WithoutSystem;
    AliasesAreProper(message);
    CanonicalIsScopable(prior);
    assert ProperRoles(prior[TurnStart(prior)..]);
    TurnIsScopable(prior[TurnStart(prior)..]);
  }

  /** The namespace of every request is proper, whatever its messages, if its tools are. */
  lemma {:induction false} NamespaceIsProper(settings: Prepare.Settings, messages: seq<Message>)
    requires JsonDecoder.NumbersAreTokens(Array(settings.tools))
    requires JsonDecoder.NumbersAreTokens(settings.requestEffort)
    requires settings.toolChoice.Some? ==> JsonDecoder.NumbersAreTokens(settings.toolChoice.value)
    ensures ProperNamespace(Prepare.CacheNamespace(settings, messages))
  {
    SystemEntries(messages);
  }

  lemma {:induction false} SystemEntries(messages: seq<Message>)
    ensures forall i | 0 <= i < |Prepare.SystemMessages(messages)| :: IsSystemEntry(Prepare.SystemMessages(messages)[i])
  {
    if messages != [] {
      SystemEntries(messages[1..]);
    }
  }
}
