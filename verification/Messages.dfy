/** Chat messages as the proxy sees them after JSON decoding, with textual content. */
module Messages {

  datatype Option<+T> = None | Some(value: T) {
    function GetOr(default: T): T {
      if Some? then value else default
    }
  }

  /** `Unset` is an absent or empty role, `Other` any role the proxy has no field list for. */
  datatype Role = System | User | Assistant | Tool | Function | Unset | Other(name: string)

  /** A field that may be absent, null or a string. */
  datatype Field = Absent | Nil | Given(text: string)

  /** A field printed as text; an absent one prints nothing, and null prints as the runtime prints it. */
  function Printed(field: Field): string {
    match field
    case Absent => ""
    case Nil => "<nil>"
    case Given(text) => text
  }

  /** A tool call; `None` is an absent or null field, which only the id tells apart. */
  datatype ToolCall = ToolCall(
    id: Field,
    kind: Option<string>,
    name: Option<string>,
    arguments: Option<string>)

  /** `content` is `None` when the field is absent; `reasoning` is `None` unless it is a string.
      No function of the proxy distinguishes an empty tool-call list from an absent one. */
  datatype Message = Message(
    role: Role,
    content: Option<string>,
    name: Option<string>,
    toolCallId: Option<string>,
    prefix: Option<bool>,
    toolCalls: seq<ToolCall>,
    reasoning: Option<string>)

  function PlainMessage(role: Role, text: string): Message {
    Message(role, Some(text), None, None, None, [], None)
  }

  function OrDefault(value: Option<string>, default: string): string {
    if value.Some? && value.value != "" then value.value else default
  }

  /** An absent `arguments` field is encoded as the JSON text of a nil value. */
  function NormalizeToolCall(call: ToolCall): ToolCall {
    ToolCall(
      if Printed(call.id) != "" then Given(Printed(call.id)) else Absent,
      Some(OrDefault(call.kind, "function")),
      Some(OrDefault(call.name, "")),
      Some(call.arguments.GetOr("null")))
  }

  function NormalizeToolCalls(calls: seq<ToolCall>): (r: seq<ToolCall>)
    ensures |r| == |calls|
    ensures forall i | 0 <= i < |calls| :: r[i] == NormalizeToolCall(calls[i])
  {
    seq(|calls|, i requires 0 <= i < |calls| => NormalizeToolCall(calls[i]))
  }

  lemma NormalizeToolCallsIdempotent(calls: seq<ToolCall>)
    ensures NormalizeToolCalls(NormalizeToolCalls(calls)) == NormalizeToolCalls(calls)
  {
    var once := NormalizeToolCalls(calls);
    assert forall i | 0 <= i < |calls| :: NormalizeToolCall(once[i]) == once[i];
  }

  lemma Reassociate<T>(a: seq<T>, b: seq<T>, c: seq<T>)
    ensures a + (b + c) == (a + b) + c
    ensures a + ([] + c) == a + c
  {
    assert [] + c == c;
  }

  /** Taking the first element off a suffix. */
  lemma SuffixStep<T>(s: seq<T>, i: nat)
    requires i < |s|
    ensures s[i..] != [] && s[i..][0] == s[i] && s[i..][1..] == s[i + 1..]
  {
  }

  predicate IsPrefix<T(==)>(p: seq<T>, s: seq<T>) {
    |p| <= |s| && s[..|p|] == p
  }

  /** `sub` is obtained from `s` by deleting elements. */
  ghost predicate Subsequence<T>(sub: seq<T>, s: seq<T>) {
    exists at: seq<nat> :: SelectedBy(sub, s, at)
  }

  ghost predicate SelectedBy<T>(sub: seq<T>, s: seq<T>, at: seq<nat>) {
    && |at| == |sub|
    && (forall i | 0 <= i < |at| :: at[i] < |s| && s[at[i]] == sub[i])
    && (forall i, j | 0 <= i < j < |at| :: at[i] < at[j])
  }

  lemma SelectConcat<T>(a: seq<T>, b: seq<T>, s: seq<T>, x: seq<nat>, y: seq<nat>)
    requires SelectedBy(a, s, x) && SelectedBy(b, s, y)
    requires forall i, j | 0 <= i < |x| && 0 <= j < |y| :: x[i] < y[j]
    ensures SelectedBy(a + b, s, x + y)
  {
  }

  lemma SelectThree<T>(a: seq<T>, b: seq<T>, c: seq<T>, s: seq<T>, x: seq<nat>, y: seq<nat>, z: seq<nat>)
    requires SelectedBy(a, s, x) && SelectedBy(b, s, y) && SelectedBy(c, s, z)
    requires forall i, j | 0 <= i < |x| && 0 <= j < |y| :: x[i] < y[j]
    requires forall i, j | 0 <= i < |x| && 0 <= j < |z| :: x[i] < z[j]
    requires forall i, j | 0 <= i < |y| && 0 <= j < |z| :: y[i] < z[j]
    ensures Subsequence(a + (b + c), s)
  {
    SelectConcat(b, c, s, y, z);
    SelectConcat(a, b + c, s, x, y + z);
  }

  lemma SelectSlice<T>(s: seq<T>, from: nat, to: nat) returns (at: seq<nat>)
    requires from <= to <= |s|
    ensures SelectedBy(s[from..to], s, at)
    ensures forall i | 0 <= i < |at| :: from <= at[i] < to
  {
    at := seq(to - from, k requires 0 <= k < to - from => from + k);
  }

  method PickAny<T(==)>(s: set<T>) returns (x: T)
    requires s != {}
    ensures x in s
  {
    x :| x in s;
  }

  lemma PickElement<T>(s: set<T>) returns (x: T)
    requires s != {}
    ensures x in s
  {
    x :| x in s;
  }
}
