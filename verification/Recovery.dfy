/** Cutting a history down at a recovery notice or at the last user message. */
module Recovery {
  import opened Messages
  import opened Keys

  function NoticeText(): string {
    "[dsproxy] " + "Refreshed reasoning_content history."
  }

  lemma NoticeTextShape()
    ensures '<' !in NoticeText()
    ensures NoticeText() != "" && NoticeText()[0] == '['
  {
    assert NoticeText()[..10] == "[dsproxy] ";
  }

  function NoticeContent(): string {
    NoticeText() + "\n\n"
  }

  /** The instruction is kept word by word: one long literal is costly wherever it is unfolded. */
  function Sentence(words: seq<string>): string {
    if words == [] then "" else
    if |words| == 1 then words[0] else words[0] + " " + Sentence(words[1..])
  }

  function RecoverySystem(): Message {
    PlainMessage(System, Sentence([
      "dsproxy", "recovered", "this", "request", "because", "older", "DeepSeek", "thinking-mode",
      "tool-call", "reasoning_content", "was", "unavailable.", "Older", "unrecoverable", "tool-call", "history",
      "was", "omitted;", "continue", "using", "only", "the", "remaining", "recovered",
      "context."
    ]))
  }

  lemma RecoverySystemRole()
    ensures RecoverySystem().role == System
  {
  }

  predicate HasNotice(message: Message) {
    message.role == Assistant && IsPrefix(NoticeText(), message.content.GetOr(""))
  }

  function Leading(messages: seq<Message>): (r: seq<Message>)
    ensures |r| <= |messages| && messages[..|r|] == r
    ensures forall i | 0 <= i < |r| :: r[i].role == System && messages[i].role == System
    ensures |r| < |messages| ==> messages[|r|].role != System
  {
    if messages == [] || messages[0].role != System then [] else
    [messages[0]] + Leading(messages[1..])
  }

  method LeadingSystemMessages(messages: seq<Message>) returns (leading: seq<Message>)
    ensures leading == Leading(messages)
  {
    leading := [];
    var i := 0;
    while i < |messages| && messages[i].role == System
      invariant 0 <= i <= |messages| && leading == messages[..i]
      invariant forall j | 0 <= j < i :: messages[j].role == System
    {
      leading := leading + [messages[i]];
      i := i + 1;
    }
    LeadingUnique(messages, i);
  }

  lemma LeadingUnique(messages: seq<Message>, n: nat)
    requires n <= |messages|
    requires forall j | 0 <= j < n :: messages[j].role == System
    requires n < |messages| ==> messages[n].role != System
    ensures Leading(messages) == messages[..n]
  {
    var found := |Leading(messages)|;
    assert found == n;
  }

  /** The user message that gives a kept tail its question, if any. */
  function ContextUser(messages: seq<Message>, i: nat): (r: seq<Message>)
    requires i <= |messages|
    ensures |r| <= 1
  {
    var user := LastUser(messages[..i]);
    if user == -1 then [] else [messages[user]]
  }

  /** Leading system messages, the recovery instruction, the context user, and the tail from `i`. */
  function CutAt(messages: seq<Message>, i: nat): seq<Message>
    requires i <= |messages|
  {
    Leading(messages) + [RecoverySystem()] + ContextUser(messages, i) + messages[i..]
  }

  method Cut(messages: seq<Message>, i: nat) returns (cut: seq<Message>, omitted: int)
    requires i <= |messages|
    ensures cut == CutAt(messages, i)
    ensures omitted == i - |Leading(messages)| - |ContextUser(messages, i)|
  {
    hide RecoverySystem, NoticeText, Leading, LastUser;
    var contextUser := FindLastUser(messages, i);
    var leading := LeadingSystemMessages(messages);
    var tail := [];
    var kept := 0;
    if contextUser != -1 {
      tail := [messages[contextUser]];
      kept := 1;
    }
    assert tail == ContextUser(messages, i);
    Reassociate(leading + [RecoverySystem()], tail, messages[i..]);
    tail := tail + messages[i..];
    cut := leading + [RecoverySystem()] + tail;
    omitted := i - |leading| - kept;
  }

  // ----- The boundary pre-pass -----

  function LastNotice(messages: seq<Message>): (i: int)
    ensures -1 <= i < |messages|
    ensures i >= 0 ==> HasNotice(messages[i])
    ensures forall j | i < j < |messages| :: !HasNotice(messages[j])
  {
    if messages == [] then -1
    else if HasNotice(messages[|messages| - 1]) then |messages| - 1
    else LastNotice(messages[..|messages| - 1])
  }

  datatype Boundary = NoBoundary | Active(messages: seq<Message>, retired: nat)

  function RecoveryBoundary(messages: seq<Message>): Boundary {
    var i := LastNotice(messages);
    if i == -1 then NoBoundary else
    var retired := i - |Leading(messages)| - |ContextUser(messages, i)|;
    Active(CutAt(messages, i), if retired < 0 then 0 else retired)
  }

  method ActiveMessagesFromRecoveryBoundary(messages: seq<Message>) returns (boundary: Boundary)
    ensures boundary == RecoveryBoundary(messages)
  {
    hide RecoverySystem, NoticeText, HasNotice, CutAt, Leading, ContextUser;
    var i := |messages| - 1;
    while i >= 0 && !HasNotice(messages[i])
      invariant -1 <= i < |messages|
      invariant forall j | i < j < |messages| :: !HasNotice(messages[j])
    {
      i := i - 1;
    }
    LastNoticeUnique(messages, i);
    if i == -1 {
      return NoBoundary;
    }
    var active, retired := Cut(messages, i);
    if retired < 0 {
      retired := 0;
    }
    boundary := Active(active, retired);
  }

  lemma LastNoticeUnique(messages: seq<Message>, i: int)
    requires -1 <= i < |messages|
    requires i >= 0 ==> HasNotice(messages[i])
    requires forall j | i < j < |messages| :: !HasNotice(messages[j])
    ensures LastNotice(messages) == i
  {
    var found := LastNotice(messages);
  }

  // ----- Recovery from missing reasoning -----

  predicate MissingBefore(missing: seq<nat>, i: nat) {
    exists k :: 0 <= k < |missing| && missing[k] < i
  }

  /** The last notice among the first `n` messages with a missing message before it, or -1. */
  function NoticeAfterMissing(messages: seq<Message>, missing: seq<nat>, n: nat): (i: int)
    requires n <= |messages|
    ensures -1 <= i < n
    ensures i >= 0 ==> HasNotice(messages[i]) && MissingBefore(missing, i)
    ensures forall j | i < j < n :: !(HasNotice(messages[j]) && MissingBefore(missing, j))
  {
    if n == 0 then -1
    else if HasNotice(messages[n - 1]) && MissingBefore(missing, n - 1) then n - 1
    else NoticeAfterMissing(messages, missing, n - 1)
  }

  datatype Recovered = Recovered(messages: seq<Message>, dropped: int, notice: string)

  function RecoverFromMissing(messages: seq<Message>, missing: seq<nat>): Recovered {
    var i := NoticeAfterMissing(messages, missing, |messages|);
    if i >= 0 then
      Recovered(CutAt(messages, i), i - |Leading(messages)| - |ContextUser(messages, i)|, "")
    else if LastUser(messages) == -1 then
      Recovered(messages, 0, "")
    else
      Recovered(Leading(messages) + [RecoverySystem()] + [messages[LastUser(messages)]],
                |messages| - |Leading(messages)| - 1, NoticeContent())
  }

  method RecoverMessagesFromMissingReasoning(messages: seq<Message>, missing: seq<nat>) returns (r: Recovered)
    ensures r == RecoverFromMissing(messages, missing)
  {
    hide RecoverySystem, NoticeText;
    var i := |messages|;
    while i > 0
      invariant 0 <= i <= |messages|
      invariant NoticeAfterMissing(messages, missing, |messages|) == NoticeAfterMissing(messages, missing, i)
    {
      i := i - 1;
      if HasNotice(messages[i]) {
        var hasEarlierMissing := AnyBelow(missing, i);
        if hasEarlierMissing {
          var cut, omitted := Cut(messages, i);
          return Recovered(cut, omitted, "");
        }
      }
    }
    var lastUser := FindLastUser(messages, |messages|);
    assert messages[..|messages|] == messages;
    if lastUser == -1 {
      return Recovered(messages, 0, "");
    }
    var kept := LeadingSystemMessages(messages);
    var omitted := |messages| - |kept| - 1;
    kept := kept + [RecoverySystem()];
    kept := kept + [messages[lastUser]];
    r := Recovered(kept, omitted, NoticeContent());
  }

  method AnyBelow(missing: seq<nat>, i: nat) returns (found: bool)
    ensures found <==> MissingBefore(missing, i)
  {
    for k := 0 to |missing|
      invariant forall j | 0 <= j < k :: missing[j] >= i
    {
      if missing[k] < i {
        return true;
      }
    }
    return false;
  }

  // ----- Conservation -----

  /** The messages an assistant cut keeps stand in order: leading system messages, then the context
      user, then the tail. */
  lemma CutOrder(messages: seq<Message>, i: nat)
    requires i < |messages| && messages[i].role == Assistant
    ensures |Leading(messages)| + |ContextUser(messages, i)| <= i
    ensures ContextUser(messages, i) != [] ==> |Leading(messages)| <= LastUser(messages[..i]) < i
  {
    var n, user := |Leading(messages)|, LastUser(messages[..i]);
    assert user >= 0 ==> messages[user].role == User;
  }

  /** `after` is `before` with one system message inserted behind the leading ones and `dropped`
      later messages deleted; nothing is reordered. */
  ghost predicate Rewrites(before: seq<Message>, after: seq<Message>, dropped: int) {
    var n := |Leading(before)|;
    && dropped >= 0
    && |after| + dropped == |before| + 1
    && IsPrefix(Leading(before) + [RecoverySystem()], after)
    && Subsequence(after[..n] + after[n + 1..], before)
  }

  lemma RewritesByInsertion(before: seq<Message>, rest: seq<Message>, dropped: int)
    requires dropped >= 0 && |Leading(before)| + |rest| + dropped == |before|
    requires Subsequence(Leading(before) + rest, before)
    ensures Rewrites(before, Leading(before) + [RecoverySystem()] + rest, dropped)
  {
    hide RecoverySystem;
    var n, after := |Leading(before)|, Leading(before) + [RecoverySystem()] + rest;
    assert after[..n] + after[n + 1..] == Leading(before) + rest;
  }

  lemma CutKeepsOrder(messages: seq<Message>, i: nat)
    requires i < |messages| && messages[i].role == Assistant
    ensures Subsequence(Leading(messages) + (ContextUser(messages, i) + messages[i..]), messages)
  {
    CutOrder(messages, i);
    var x := SelectSlice(messages, 0, |Leading(messages)|);
    var y := SelectContext(messages, i);
    var z := SelectSlice(messages, i, |messages|);
    SelectThree(Leading(messages), ContextUser(messages, i), messages[i..], messages, x, y, z);
  }

  lemma SelectContext(messages: seq<Message>, i: nat) returns (at: seq<nat>)
    requires i < |messages| && messages[i].role == Assistant
    ensures SelectedBy(ContextUser(messages, i), messages, at)
    ensures forall k | 0 <= k < |at| :: |Leading(messages)| <= at[k] < i
  {
    CutOrder(messages, i);
    var user := LastUser(messages[..i]);
    at := if user == -1 then [] else [user];
  }

  lemma CutConserves(messages: seq<Message>, i: nat)
    requires i < |messages| && messages[i].role == Assistant
    ensures Rewrites(messages, CutAt(messages, i), i - |Leading(messages)| - |ContextUser(messages, i)|)
  {
    hide RecoverySystem, NoticeText, Subsequence, Leading, LastUser, Rewrites, ContextUser;
    CutOrder(messages, i);
    CutKeepsOrder(messages, i);
    var rest := ContextUser(messages, i) + messages[i..];
    RewritesByInsertion(messages, rest, i - |Leading(messages)| - |ContextUser(messages, i)|);
    Reassociate(Leading(messages) + [RecoverySystem()], ContextUser(messages, i), messages[i..]);
  }

  /** The boundary pre-pass loses no leading system message, reorders nothing, and reports exactly
      what it drops: its clamp never fires. */
  lemma BoundaryConserves(messages: seq<Message>)
    requires RecoveryBoundary(messages).Active?
    ensures Rewrites(messages, RecoveryBoundary(messages).messages, RecoveryBoundary(messages).retired)
  {
    hide RecoverySystem, NoticeText, Rewrites;
    CutOrder(messages, LastNotice(messages));
    CutConserves(messages, LastNotice(messages));
  }

  /** The same for every recovery step that rewrites the history. */
  lemma RecoveryConserves(messages: seq<Message>, missing: seq<nat>)
    requires LastUser(messages) >= 0 || NoticeAfterMissing(messages, missing, |messages|) >= 0
    ensures var r := RecoverFromMissing(messages, missing); Rewrites(messages, r.messages, r.dropped)
  {
    hide RecoverySystem, NoticeText, Subsequence;
    var i := NoticeAfterMissing(messages, missing, |messages|);
    if i >= 0 {
      CutConserves(messages, i);
    } else {
      LastUserKept(messages);
      RewritesByInsertion(messages, [messages[LastUser(messages)]], |messages| - |Leading(messages)| - 1);
    }
  }

  lemma LastUserKept(messages: seq<Message>)
    requires LastUser(messages) >= 0
    ensures |Leading(messages)| <= LastUser(messages)
    ensures Subsequence(Leading(messages) + [messages[LastUser(messages)]], messages)
  {
    var n, user := |Leading(messages)|, LastUser(messages);
    var x := SelectSlice(messages, 0, n);
    assert SelectedBy([messages[user]], messages, [user]);
    SelectConcat(Leading(messages), [messages[user]], messages, x, [user]);
  }

  // ----- Progress -----

  function AssistantCount(messages: seq<Message>): nat {
    if messages == [] then 0
    else (if messages[0].role == Assistant then 1 else 0) + AssistantCount(messages[1..])
  }

  lemma {:induction false} AssistantCountConcat(a: seq<Message>, b: seq<Message>)
    ensures AssistantCount(a + b) == AssistantCount(a) + AssistantCount(b)
  {
    if a == [] {
      assert a + b == b;
    } else {
      assert (a + b)[1..] == a[1..] + b;
      AssistantCountConcat(a[1..], b);
    }
  }

  lemma {:induction false} NoAssistantCount(messages: seq<Message>)
    requires forall m | m in messages :: m.role != Assistant
    ensures AssistantCount(messages) == 0
  {
    if messages != [] {
      NoAssistantCount(messages[1..]);
    }
  }

  lemma {:induction false} SomeAssistantCount(messages: seq<Message>, i: nat)
    requires i < |messages| && messages[i].role == Assistant
    ensures AssistantCount(messages) > 0
  {
    if i > 0 {
      SomeAssistantCount(messages[1..], i - 1);
    }
  }

  /** A cut at `i` keeps exactly the assistant messages from `i` on. */
  lemma CutAssistants(messages: seq<Message>, i: nat)
    requires i <= |messages|
    ensures AssistantCount(CutAt(messages, i)) == AssistantCount(messages[i..])
  {
    hide RecoverySystem, NoticeText;
    RecoverySystemRole();
    var head := Leading(messages) + [RecoverySystem()] + ContextUser(messages, i);
    NoAssistantCount(head);
    AssistantCountConcat(head, messages[i..]);
  }

  lemma CutProgress(messages: seq<Message>, k: nat, i: nat)
    requires k < i < |messages| && messages[k].role == Assistant
    ensures AssistantCount(CutAt(messages, i)) < AssistantCount(messages)
  {
    CutAssistants(messages, i);
    SplitCount(messages, i);
    SomeAssistantCount(messages[..i], k);
  }

  lemma SplitCount(messages: seq<Message>, i: nat)
    requires i <= |messages|
    ensures AssistantCount(messages) == AssistantCount(messages[..i]) + AssistantCount(messages[i..])
  {
    assert messages == messages[..i] + messages[i..];
    AssistantCountConcat(messages[..i], messages[i..]);
  }

  lemma LastUserProgress(messages: seq<Message>, k: nat)
    requires k < |messages| && messages[k].role == Assistant && LastUser(messages) >= 0
    ensures AssistantCount(Leading(messages) + [RecoverySystem()] + [messages[LastUser(messages)]])
      < AssistantCount(messages)
    ensures |messages| - |Leading(messages)| - 1 > 0
  {
    hide RecoverySystem, NoticeText;
    LastUserKept(messages);
    RecoverySystemRole();
    NoAssistantCount(Leading(messages) + [RecoverySystem()] + [messages[LastUser(messages)]]);
    SomeAssistantCount(messages, k);
  }

  /** Every step that rewrites a history with a missing message loses an assistant message and
      drops at least one message; it does nothing only when no user message exists. */
  lemma RecoveryProgress(messages: seq<Message>, missing: seq<nat>)
    requires missing != []
    requires forall k | 0 <= k < |missing| :: missing[k] < |messages| && messages[missing[k]].role == Assistant
    ensures var r := RecoverFromMissing(messages, missing);
      && (r.dropped != 0 ==> AssistantCount(r.messages) < AssistantCount(messages))
      && (r.dropped == 0 ==> LastUser(messages) == -1 && r.messages == messages)
  {
    hide RecoverySystem, NoticeText, AssistantCount, CutAt, ContextUser, Leading;
    var i := NoticeAfterMissing(messages, missing, |messages|);
    if i >= 0 {
      var k :| 0 <= k < |missing| && missing[k] < i;
      DroppedBefore(messages, missing[k], i);
      CutProgress(messages, missing[k], i);
    } else if LastUser(messages) >= 0 {
      LastUserProgress(messages, missing[0]);
    }
  }

  /** The assistant message `k` before the cut is neither leading nor the context user. */
  lemma DroppedBefore(messages: seq<Message>, k: nat, i: nat)
    requires k < i < |messages| && messages[k].role == Assistant && messages[i].role == Assistant
    ensures i - |Leading(messages)| - |ContextUser(messages, i)| > 0
  {
    hide Leading;
    CutOrder(messages, i);
    CutOrder(messages, k);
    var user := LastUser(messages[..i]);
    assert user >= 0 ==> messages[user].role == User;
  }
}
