/** Decoded chunks of a streamed completion. */
module Chunks {
  import opened Messages

  datatype FunctionDelta = FunctionDelta(name: Option<string>, arguments: Option<string>)

  /** A fragment of a tool call; without an index it opens the next slot. */
  datatype ToolDelta = ToolDelta(
    index: Option<nat>,
    id: Field,
    kind: Field,
    function_: Option<FunctionDelta>)

  /** `toolCalls` is `None` when the field is absent or null. */
  datatype Delta = Delta(
    role: Option<Role>,
    content: Field,
    reasoning: Option<string>,
    toolCalls: Option<seq<ToolDelta>>)

  datatype Choice = Choice(index: Option<int>, finish: Option<string>, delta: Option<Delta>)

  datatype Chunk = Chunk(choices: seq<Choice>, model: Option<string>)

  const EMPTY_DELTA := Delta(None, Absent, None, None)

  function IndexOf(choice: Choice): int {
    choice.index.GetOr(0)
  }

  /** The entries of a list that belong to choice `j`, in order. */
  function Own(choices: seq<Choice>, j: int): seq<Choice> {
    if choices == [] then [] else
    var n := |choices| - 1;
    Own(choices[..n], j) + (if IndexOf(choices[n]) == j then [choices[n]] else [])
  }

  /** All entries of a chunk sequence, in order of arrival. */
  function Entries(chunks: seq<Chunk>): seq<Choice> {
    if chunks == [] then [] else Entries(chunks[..|chunks| - 1]) + chunks[|chunks| - 1].choices
  }

  lemma {:induction false} OwnConcat(a: seq<Choice>, b: seq<Choice>, j: int)
    ensures Own(a + b, j) == Own(a, j) + Own(b, j)
  {
    if b == [] {
      assert a + b == a;
    } else {
      assert (a + b)[..|a + b| - 1] == a + b[..|b| - 1];
      OwnConcat(a, b[..|b| - 1], j);
    }
  }
}
