/** What a normalised message contains, field by field, told from the message the client sent. */
module NormalForm {
  import opened Messages

  /** A printed id: null prints as the runtime prints it, and an empty text is none. */
  predicate IsPrintedId(raw: Field, id: Field) {
    match raw
    case Absent => id == Absent
    case Nil => id == Given("<nil>")
    case Given(text) => id == if text == "" then Absent else Given(text)
  }

  /** Type, name and arguments of a call with their defaults. */
  predicate IsNormalBody(raw: ToolCall, call: ToolCall) {
    && call.kind == (if raw.kind == None || raw.kind == Some("") then Some("function") else raw.kind)
    && call.name == (if raw.name == None then Some("") else raw.name)
    && call.arguments == (if raw.arguments == None then Some("null") else raw.arguments)
  }

  ghost predicate AreNormalCalls(raw: seq<ToolCall>, calls: seq<ToolCall>) {
    && |calls| == |raw|
    && forall i | 0 <= i < |raw| :: IsPrintedId(raw[i].id, calls[i].id) && IsNormalBody(raw[i], calls[i])
  }

  function GivenText(message: Message): string {
    if message.content == None then "" else message.content.value
  }

  /** The fields of a message made of `raw`, the reasoning of an assistant message aside.
      `text` is what became of the text of an assistant message. */
  ghost predicate HasForm(raw: Message, text: string, out: Message) {
    match raw.role
    case System => out == Message(System, Some(GivenText(raw)), raw.name, None, None, [], None)
    case User => out == Message(User, Some(GivenText(raw)), raw.name, None, None, [], None)
    case Unset => out == Message(User, Some(GivenText(raw)), raw.name, None, None, [], None)
    case Tool => out == Message(Tool, Some(GivenText(raw)), None, raw.toolCallId, None, [], None)
    case Function => out == Message(Tool, Some(GivenText(raw)), None, raw.toolCallId, None, [], None)
    case Assistant =>
      && out.role == Assistant && out.content == Some(text) && out.name == raw.name
      && out.toolCallId == None && out.prefix == raw.prefix && AreNormalCalls(raw.toolCalls, out.toolCalls)
    case Other(_) =>
      && out.role == raw.role && out.content == raw.content && out.name == raw.name
      && out.toolCallId == raw.toolCallId && out.prefix == raw.prefix && out.reasoning == raw.reasoning
      && AreNormalCalls(raw.toolCalls, out.toolCalls)
  }

  /** The reasoning of an assistant message: none when it is not kept, its own when it has one, and one that
      it did not bring only when repair is on. */
  predicate HasReasoning(raw: Message, keep: bool, repair: bool, out: Message) {
    raw.role == Assistant ==>
      && (!keep ==> out.reasoning == None)
      && (keep && raw.reasoning != None ==> out.reasoning == raw.reasoning)
      && (keep && raw.reasoning == None && !repair ==> out.reasoning == None)
  }

  lemma IsNormalised(raw: ToolCall)
    ensures var call := NormalizeToolCall(raw); IsPrintedId(raw.id, call.id) && IsNormalBody(raw, call)
  {
  }

  lemma CallsAreNormalised(raw: seq<ToolCall>)
    ensures AreNormalCalls(raw, NormalizeToolCalls(raw))
  {
    hide IsPrintedId, IsNormalBody, NormalizeToolCall;
    forall i | 0 <= i < |raw|
      ensures var call := NormalizeToolCalls(raw)[i]; IsPrintedId(raw[i].id, call.id) && IsNormalBody(raw[i], call)
    {
      IsNormalised(raw[i]);
    }
  }

  /** The form determines the calls, and normalised calls are their own form. */
  lemma NormalCallsAreUnique(raw: seq<ToolCall>, calls: seq<ToolCall>)
    ensures AreNormalCalls(raw, calls) <==> calls == NormalizeToolCalls(raw)
  {
    CallsAreNormalised(raw);
    if AreNormalCalls(raw, calls) {
      assert forall i | 0 <= i < |raw| :: calls[i] == NormalizeToolCalls(raw)[i];
    }
  }
}
