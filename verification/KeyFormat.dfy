/** The digested texts, member by member: objects are written in the order of their names. */
module KeyFormat {
  import opened Messages
  import opened JsonCanonical
  import opened Keys
  import opened KeyText
  import JsonText

  /** An object with these members, the absent ones left out. */
  type Members = seq<(string, Option<Json>)>

  ghost function ObjectText(members: Members): string {
    "{" + MemberTexts(members, false)
  }

  /** The rest of an object; `comma` when a member stands in front. */
  ghost function MemberTexts(members: Members, comma: bool): string {
    if members == [] then "}"
    else if members[0].1.None? then MemberTexts(members[1..], comma)
    else (if comma then "," else "")
         + (Quote(members[0].0) + (":" + (Encode(members[0].1.value) + MemberTexts(members[1..], true))))
  }

  ghost predicate InOrder(members: Members) {
    forall i, k | 0 <= i < k < |members| :: Less(members[i].0, members[k].0)
  }

  predicate HasMember(fields: Fields, name: string, value: Option<Json>) {
    if value.None? then name !in fields else name in fields && fields[name] == value.value
  }

  /** The object has the members that are present, and no others. */
  ghost predicate HasMembers(fields: Fields, members: Members) {
    && (forall i | 0 <= i < |members| :: HasMember(fields, members[i].0, members[i].1))
    && forall name | name in fields :: exists i :: 0 <= i < |members| && members[i].0 == name
  }

  /** The names of the members that are present. */
  function Names(members: Members): seq<string> {
    if members == [] then []
    else (if members[0].1.Some? then [members[0].0] else []) + Names(members[1..])
  }

  lemma {:induction false} NamesOf(members: Members, name: string)
    ensures name in Names(members) <==> exists i :: 0 <= i < |members| && members[i].0 == name && members[i].1.Some?
  {
    if members != [] {
      NamesOf(members[1..], name);
      if i :| 0 <= i < |members| && members[i].0 == name && members[i].1.Some? {
        assert i > 0 ==> members[1..][i - 1] == members[i];
      }
    }
  }

  lemma {:induction false} NamesIncrease(members: Members)
    requires InOrder(members)
    ensures Increasing(Names(members))
  {
    hide Less;
    if members != [] {
      NamesIncrease(members[1..]);
      forall name | name in Names(members[1..])
        ensures Less(members[0].0, name)
      {
        NamesOf(members[1..], name);
      }
    }
  }

  lemma NamesAreSorted(fields: Fields, members: Members)
    requires InOrder(members) && HasMembers(fields, members)
    ensures SortedKeys(fields.Keys) == Names(members)
  {
    hide InOrder, Less;
    NamesIncrease(members);
    forall name: string
      ensures name in Names(members) <==> name in fields.Keys
    {
      NamesOf(members, name);
    }
    assert Lists(Names(members), fields.Keys);
    OneSortedListing(SortedKeys(fields.Keys), Names(members), fields.Keys);
  }

  lemma MemberStep(v: Json, keys: seq<string>, i: nat)
    requires v.Object? && i < |keys| && forall k | k in keys :: k in v.fields
    ensures keys[i] in v.fields
    ensures MembersFrom(v, keys, i)
         == (if i > 0 then "," else "")
            + (Quote(keys[i]) + (":" + (Encode(v.fields[keys[i]]) + MembersFrom(v, keys, i + 1))))
  {
    hide Quote, Encode;
  }

  lemma {:induction false} TextsFrom(v: Json, keys: seq<string>, members: Members, i: nat)
    requires v.Object? && i <= |keys| && forall k | k in keys :: k in v.fields
    requires keys[i..] == Names(members)
    requires forall k | 0 <= k < |members| && members[k].1.Some? ::
      members[k].0 in v.fields && v.fields[members[k].0] == members[k].1.value
    ensures MembersFrom(v, keys, i) == MemberTexts(members, i > 0)
    decreases |members|
  {
    hide Quote, Encode, MembersFrom;
    if members == [] {
      ObjectEnds(v, keys);
    } else if members[0].1.None? {
      TextsFrom(v, keys, members[1..], i);
    } else {
      assert keys[i] == keys[i..][0] == members[0].0;
      assert keys[i + 1..] == keys[i..][1..];
      MemberStep(v, keys, i);
      TextsFrom(v, keys, members[1..], i + 1);
    }
  }

  /** An object is written with its present members in the order of their names. */
  lemma WrittenInOrder(fields: Fields, members: Members)
    requires InOrder(members) && HasMembers(fields, members)
    ensures Encode(Object(fields)) == ObjectText(members)
  {
    hide InOrder, MembersFrom, MemberTexts;
    NamesAreSorted(fields, members);
    TextsFrom(Object(fields), Names(members), members, 0);
    assert Encode(Object(fields)) == "{" + MembersFrom(Object(fields), SortedKeys(fields.Keys), 0);
  }

  lemma Before(a: string, b: string, i: nat)
    requires JsonText.SmallerAt(a, b, i)
    ensures Less(a, b)
  {
    JsonText.LessIff(a, b);
  }

  ghost predicate Adjacent(members: Members) {
    forall i | 0 < i < |members| :: Less(members[i - 1].0, members[i].0)
  }

  lemma {:induction false} AdjacentIsOrdered(members: Members)
    requires Adjacent(members)
    ensures InOrder(members)
  {
    hide Less;
    if |members| > 1 {
      var n := |members| - 1;
      AdjacentIsOrdered(members[..n]);
      forall i | 0 <= i < n
        ensures Less(members[i].0, members[n].0)
      {
        if i < n - 1 {
          assert Less(members[..n][i].0, members[..n][n - 1].0);
          LessTransitive(members[i].0, members[n - 1].0, members[n].0);
        }
      }
      forall i, k | 0 <= i < k < |members|
        ensures Less(members[i].0, members[k].0)
      {
        if k < n {
          assert Less(members[..n][i].0, members[..n][k].0);
        }
      }
    }
  }

  // ----- The payloads -----

  function CallBody(call: ToolCall): Fields {
    map["name" := Text(call.name.GetOr("")), "arguments" := Text(call.arguments.GetOr(""))]
  }

  function MembersOfBody(call: ToolCall): Members {
    [("arguments", Some(Text(call.arguments.GetOr("")))), ("name", Some(Text(call.name.GetOr(""))))]
  }

  lemma BodyFormat(call: ToolCall)
    ensures Encode(Object(CallBody(call))) == ObjectText(MembersOfBody(call))
  {
    hide Encode, ObjectText, Less;
    Before("arguments", "name", 0);
    var m := MembersOfBody(call);
    AdjacentIsOrdered(m);
    assert forall name | name in CallBody(call) :: name == m[0].0 || name == m[1].0;
    WrittenInOrder(CallBody(call), m);
  }

  function MembersOfCall(call: ToolCall): Members {
    [("function", Some(Object(CallBody(call)))), ("id", IdText(call.id)), ("type", Some(Text(call.kind.GetOr(""))))]
  }

  /** A call: its function with arguments and name, its id if it has one, and its type. */
  lemma CallFormat(call: ToolCall)
    ensures Encode(CallJson(call)) == ObjectText(MembersOfCall(call))
    ensures Encode(Object(CallBody(call))) == ObjectText(MembersOfBody(call))
  {
    hide Encode, ObjectText, MembersOfBody, MembersOfCall, InOrder, HasMembers, CallBody;
    BodyFormat(call);
    CallNames(call);
    CallHasMembers(call);
    WrittenInOrder(CallJson(call).fields, MembersOfCall(call));
  }

  lemma CallNames(call: ToolCall)
    ensures InOrder(MembersOfCall(call))
  {
    hide Less, CallBody;
    Before("function", "id", 0);
    Before("id", "type", 0);
    AdjacentIsOrdered(MembersOfCall(call));
  }

  lemma CallHasMembers(call: ToolCall)
    ensures CallJson(call).Object? && HasMembers(CallJson(call).fields, MembersOfCall(call))
  {
    var m := MembersOfCall(call);
    assert forall name | name in CallJson(call).fields :: name == m[0].0 || name == m[1].0 || name == m[2].0;
  }

  /** Every role is written under its own word. */
  lemma RoleIff(role: Role)
    requires ProperRole(role)
    ensures RoleName(role) == "system" <==> role == System
    ensures RoleName(role) == "user" <==> role == User
    ensures RoleName(role) == "assistant" <==> role == Assistant
    ensures RoleName(role) == "tool" <==> role == Tool
    ensures RoleName(role) == "function" <==> role == Function
    ensures RoleName(role) == "" <==> role == Unset
  {
  }

  function MembersOfMessage(message: Message): Members {
    [("content", OptionalText(message.content)),
     ("name", OptionalText(message.name)),
     ("prefix", if message.prefix.None? then None else Some(Bool(message.prefix.value))),
     ("role", Some(Text(RoleName(message.role)))),
     ("tool_call_id", OptionalText(message.toolCallId)),
     ("tool_calls", if message.toolCalls == [] then None else Some(CallsJson(message.toolCalls)))]
  }

  lemma MessageNames(message: Message)
    ensures InOrder(MembersOfMessage(message))
  {
    hide Less, CallsJson;
    Before("content", "name", 0);
    Before("name", "prefix", 0);
    Before("prefix", "role", 0);
    Before("role", "tool_call_id", 0);
    Before("tool_call_id", "tool_calls", 9);
    AdjacentIsOrdered(MembersOfMessage(message));
  }

  lemma OnlyThese(message: Message)
    ensures forall name | name in MessageFields(message) ::
      name in {"content", "name", "prefix", "role", "tool_call_id", "tool_calls"}
  {
    hide CallsJson, RoleName;
  }

  /** A message of a scope or a turn: the fields that it has, in the order of their names. */
  lemma MessageFormat(message: Message)
    ensures Encode(Object(MessageFields(message))) == ObjectText(MembersOfMessage(message))
  {
    hide Encode, ObjectText, CallsJson, MessageFields, RoleName, InOrder;
    MessageNames(message);
    KeyText.MembersOf(message);
    OtherMembersOf(message);
    OnlyThese(message);
    var m := MembersOfMessage(message);
    assert forall name | name in MessageFields(message) ::
      name == m[0].0 || name == m[1].0 || name == m[2].0 || name == m[3].0 || name == m[4].0 || name == m[5].0;
    WrittenInOrder(MessageFields(message), m);
  }

  function MembersOfSystem(message: Message): Members {
    [("content", Some(if message.content.None? then Null else Text(message.content.value))),
     ("name", OptionalText(message.name)),
     ("role", Some(Text("system")))]
  }

  lemma SystemFormat(message: Message)
    ensures Encode(Object(SystemFields(message))) == ObjectText(MembersOfSystem(message))
  {
    hide Encode, ObjectText, Less;
    Before("content", "name", 0);
    Before("name", "role", 0);
    var m := MembersOfSystem(message);
    AdjacentIsOrdered(m);
    assert forall name | name in SystemFields(message) :: name == m[0].0 || name == m[1].0 || name == m[2].0;
    WrittenInOrder(SystemFields(message), m);
  }

  function MembersOfContext(context: RuntimeContext): Members {
    [("system_messages", Some(NilOr(SystemsJson(context.systems)))),
     ("tool_choice", Some(context.toolChoice)),
     ("tools", Some(Array(context.tools)))]
  }

  lemma ContextFormat(context: RuntimeContext)
    ensures Encode(ContextJson(context)) == ObjectText(MembersOfContext(context))
  {
    hide Encode, ObjectText, Less, NilOr, SystemsJson;
    Before("system_messages", "tool_choice", 0);
    Before("tool_choice", "tools", 4);
    var m := MembersOfContext(context);
    AdjacentIsOrdered(m);
    assert forall name | name in ContextJson(context).fields :: name == m[0].0 || name == m[1].0 || name == m[2].0;
    WrittenInOrder(ContextJson(context).fields, m);
  }

  ghost function MembersOfNamespace(digest: Digest, n: Namespace): Members {
    [("authorization_hash", Some(Text(AuthorizationHash(digest, n.authorization)))),
     ("base_url", Some(Text(n.baseUrl))),
     ("model", Some(Text(n.model))),
     ("reasoning_effort", Some(n.effort)),
     ("runtime_context_hash", Some(Text(digest(ObjectText(MembersOfContext(n.context)))))),
     ("thinking", Some(Object(map["type" := Text(if n.thinking then "enabled" else "disabled")]))),
     ("user_id", Some(Text(n.userId))),
     ("v", Some(Text("v3")))]
  }

  lemma NamespaceNames(digest: Digest, n: Namespace)
    ensures InOrder(MembersOfNamespace(digest, n))
  {
    hide Less, AuthorizationHash, MembersOfContext, ObjectText;
    Before("authorization_hash", "base_url", 0);
    Before("base_url", "model", 0);
    Before("model", "reasoning_effort", 0);
    Before("reasoning_effort", "runtime_context_hash", 1);
    Before("runtime_context_hash", "thinking", 0);
    Before("thinking", "user_id", 0);
    Before("user_id", "v", 0);
    AdjacentIsOrdered(MembersOfNamespace(digest, n));
  }

  /** A namespace: the whole configuration, with credentials and runtime context as digests. */
  lemma NamespaceFormat(digest: Digest, n: Namespace)
    ensures NamespaceText(digest, n) == ObjectText(MembersOfNamespace(digest, n))
  {
    hide Encode, ObjectText, MembersOfNamespace, NamespaceFields, HasMembers, InOrder;
    NamespaceNames(digest, n);
    NamespaceHasMembers(digest, n);
    WrittenInOrder(NamespaceFields(digest, n), MembersOfNamespace(digest, n));
  }

  lemma NamespaceHasMembers(digest: Digest, n: Namespace)
    ensures HasMembers(NamespaceFields(digest, n), MembersOfNamespace(digest, n))
  {
    hide Encode, ObjectText, AuthorizationHash, ContextJson, MembersOfContext, HasMember, NamespaceFields;
    FirstOfNamespace(digest, n);
    LastOfNamespace(digest, n);
    OnlyInNamespace(digest, n);
    var m := MembersOfNamespace(digest, n);
    assert forall name | name in NamespaceFields(digest, n) ::
      || name == m[0].0 || name == m[1].0 || name == m[2].0 || name == m[3].0
      || name == m[4].0 || name == m[5].0 || name == m[6].0 || name == m[7].0;
  }

  lemma FirstOfNamespace(digest: Digest, n: Namespace)
    ensures var fields := NamespaceFields(digest, n);
      && HasMember(fields, "authorization_hash", Some(Text(AuthorizationHash(digest, n.authorization))))
      && HasMember(fields, "base_url", Some(Text(n.baseUrl)))
      && HasMember(fields, "model", Some(Text(n.model)))
      && HasMember(fields, "reasoning_effort", Some(n.effort))
  {
    hide Encode, AuthorizationHash, ContextJson;
  }

  lemma LastOfNamespace(digest: Digest, n: Namespace)
    ensures var fields, thinking := NamespaceFields(digest, n), if n.thinking then "enabled" else "disabled";
      && HasMember(fields, "runtime_context_hash", Some(Text(digest(ObjectText(MembersOfContext(n.context))))))
      && HasMember(fields, "thinking", Some(Object(map["type" := Text(thinking)])))
      && HasMember(fields, "user_id", Some(Text(n.userId)))
      && HasMember(fields, "v", Some(Text("v3")))
  {
    hide Encode, AuthorizationHash, ContextJson, MembersOfContext, ObjectText;
    ContextFormat(n.context);
  }

  lemma OnlyInNamespace(digest: Digest, n: Namespace)
    ensures NamespaceFields(digest, n).Keys == {"authorization_hash", "base_url", "model", "reasoning_effort",
      "runtime_context_hash", "thinking", "user_id", "v"}
  {
    hide Encode, AuthorizationHash, ContextJson;
  }

  /** A scope: the messages, alone or with the digest of the namespace behind them. */
  lemma ScopeFormat(digest: Digest, scope: Scope)
    ensures ScopeText(digest, scope)
         == if scope.namespace.None? then Encode(MessagesJson(scope.messages))
            else ObjectText([("messages", Some(MessagesJson(scope.messages))),
                             ("namespace", Some(Text(digest(NamespaceText(digest, scope.namespace.value)))))])
  {
    hide Encode, ObjectText, Less, NamespaceText, MessagesJson;
    if scope.namespace.Some? {
      Before("messages", "namespace", 0);
      var m: Members := [("messages", Some(MessagesJson(scope.messages))),
                         ("namespace", Some(Text(digest(NamespaceText(digest, scope.namespace.value)))))];
      AdjacentIsOrdered(m);
      assert forall name | name in ScopeJson(digest, scope).fields :: name == m[0].0 || name == m[1].0;
      WrittenInOrder(ScopeJson(digest, scope).fields, m);
    }
  }

  /** What a signature digests: content and normalised calls, null without any. */
  lemma SignatureFormat(content: string, calls: seq<ToolCall>)
    ensures Encode(SignatureJson(content, calls))
         == ObjectText([("content", Some(Text(content))),
                        ("tool_calls", Some(if calls == [] then Null else CallsJson(calls)))])
  {
    hide Encode, ObjectText, Less;
    Before("content", "tool_calls", 0);
    var m: Members := [("content", Some(Text(content))),
                       ("tool_calls", Some(if calls == [] then Null else CallsJson(calls)))];
    AdjacentIsOrdered(m);
    assert forall name | name in SignatureJson(content, calls).fields :: name == m[0].0 || name == m[1].0;
    WrittenInOrder(SignatureJson(content, calls).fields, m);
  }
}
