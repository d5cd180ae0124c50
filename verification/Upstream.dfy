/** What goes upstream: every outgoing message is the recovery instruction or one of the client's messages in
    normal form, in the client's order, and what is missing has been counted. */
module Upstream {
  import opened Messages
  import opened Keys
  import opened NormalForm
  import opened Normalize
  import opened Recovery
  import opened Prepare
  import opened Recording
  import Thinking

  /** One strip for every pass over the history. */
  function StripTimes(passes: nat, text: string): string {
    if passes == 0 then text else Thinking.Strip(StripTimes(passes - 1, text))
  }

  /** `out` is what `passes` normalising passes make of `raw`. */
  ghost predicate IsNormalOf(raw: Message, passes: nat, keep: bool, repair: bool, out: Message) {
    && HasForm(raw, StripTimes(passes, GivenText(raw)), out)
    && HasReasoning(raw, keep, repair, out)
  }

  // ----- One pass -----

  lemma AllHaveForm(backend: Backend, raw: seq<Message>, namespace: Option<Namespace>, policy: Policy)
    ensures var messages := NormalizeAll(backend, raw, namespace, policy).messages;
      forall i | 0 <= i < |raw| :: IsNormalOf(raw[i], 1, policy.keep, policy.repair, messages[i])
  {
    hide NormalizeAll, Thinking.Strip, HasForm;
    AllAreNormal(backend, raw, namespace, policy);
    forall i: nat | i < |raw|
      ensures IsNormalOf(raw[i], 1, policy.keep, policy.repair,
                         NormalizeAll(backend, raw, namespace, policy).messages[i])
    {
      assert IsNormal(raw[i], policy, NormalizeAll(backend, raw, namespace, policy).messages[i]);
      assert StripTimes(1, GivenText(raw[i])) == Thinking.Strip(StripTimes(0, GivenText(raw[i])));
    }
  }

  /** One more pass over a normal message strips an assistant text once more and changes nothing else. */
  lemma NormalAgain(raw: Message, passes: nat, keep: bool, first: bool, before: Message, second: bool, after: Message)
    requires IsNormalOf(raw, passes, keep, first, before) && IsNormalOf(before, 1, keep, second, after)
    ensures IsNormalOf(raw, passes + 1, keep, first || second, after)
  {
    hide Thinking.Strip, AreNormalCalls, NormalizeToolCalls;
    NormalCallsAreUnique(raw.toolCalls, before.toolCalls);
    NormalCallsAreUnique(before.toolCalls, after.toolCalls);
    NormalCallsAreUnique(raw.toolCalls, after.toolCalls);
    NormalizeToolCallsIdempotent(raw.toolCalls);
    assert StripTimes(1, GivenText(before)) == Thinking.Strip(StripTimes(0, GivenText(before)));
  }

  lemma InstructionIsNormal(keep: bool, repair: bool, after: Message)
    requires IsNormalOf(RecoverySystem(), 1, keep, repair, after)
    ensures after == RecoverySystem()
  {
    hide Sentence;
  }

  lemma RoleOfNormal(raw: Message, passes: nat, keep: bool, repair: bool, out: Message)
    requires IsNormalOf(raw, passes, keep, repair, out)
    ensures out.role == System <==> raw.role == System
  {
    hide AreNormalCalls, StripTimes;
  }

  // ----- Where the messages of a history come from -----

  /** `at[i]` is the client's message that message `i` of a history is made of, or -1 for the recovery
      instruction, which always stands among the leading system messages. */
  ghost predicate Traces(raw: seq<Message>, passes: nat, keep: bool, messages: seq<Message>, at: seq<int>) {
    && |at| == |messages|
    && (forall i: nat | i < |at| :: TracesOne(raw, passes, keep, messages, at, i))
    && InOrder(at)
  }

  ghost predicate TracesOne(raw: seq<Message>, passes: nat, keep: bool, messages: seq<Message>, at: seq<int>, i: nat)
    requires i < |at| == |messages|
  {
    if at[i] == -1 then messages[i] == RecoverySystem() && i < |Leading(messages)|
    else 0 <= at[i] < |raw| && IsNormalOf(raw[at[i]], passes, keep, keep, messages[i])
  }

  ghost predicate InOrder(at: seq<int>) {
    forall i, k | 0 <= i < k < |at| && at[i] != -1 && at[k] != -1 :: at[i] < at[k]
  }

  /** How many of the client's messages are left. */
  function Left(at: seq<int>): nat {
    if at == [] then 0 else Left(at[..|at| - 1]) + if at[|at| - 1] == -1 then 0 else 1
  }

  lemma {:induction false} LeftConcat(a: seq<int>, b: seq<int>)
    ensures Left(a + b) == Left(a) + Left(b)
  {
    if b == [] {
      assert a + b == a;
    } else {
      assert (a + b)[..|a + b| - 1] == a + b[..|b| - 1];
      LeftConcat(a, b[..|b| - 1]);
    }
  }

  lemma {:induction false} AllLeft(at: seq<int>)
    requires forall i | 0 <= i < |at| :: at[i] != -1
    ensures Left(at) == |at|
  {
    if at != [] {
      AllLeft(at[..|at| - 1]);
    }
  }

  lemma LeadingKept(a: seq<Message>, b: seq<Message>)
    requires |a| == |b| && forall i | 0 <= i < |a| :: a[i].role == System <==> b[i].role == System
    ensures |Leading(a)| == |Leading(b)|
  {
    LeadingUnique(b, |Leading(a)|);
  }

  /** A pass keeps every message where it is. */
  lemma TracesAfterPass(raw: seq<Message>, passes: nat, keep: bool, messages: seq<Message>, at: seq<int>,
                        after: seq<Message>)
    requires Traces(raw, passes, keep, messages, at) && |after| == |messages|
    requires forall i | 0 <= i < |messages| :: IsNormalOf(messages[i], 1, keep, keep, after[i])
    ensures Traces(raw, passes + 1, keep, after, at)
  {
    hide IsNormalOf, RecoverySystem, Leading, InOrder;
    var more := passes + 1;
    forall i | 0 <= i < |messages|
      ensures messages[i].role == System <==> after[i].role == System
    {
      RoleOfNormal(messages[i], 1, keep, keep, after[i]);
    }
    LeadingKept(messages, after);
    forall i: nat | i < |at|
      ensures TracesOne(raw, more, keep, after, at, i)
    {
      assert TracesOne(raw, passes, keep, messages, at, i);
      if at[i] == -1 {
        InstructionIsNormal(keep, keep, after[i]);
      } else {
        NormalAgain(raw[at[i]], passes, keep, keep, messages[i], keep, after[i]);
      }
    }
  }

  /** A cut keeps the leading messages and some later ones, and inserts the instruction between them. */
  lemma TracesAfterCut(raw: seq<Message>, passes: nat, keep: bool, messages: seq<Message>, at: seq<int>,
                       rest: seq<Message>, picks: seq<nat>)
    returns (next: seq<int>)
    requires Traces(raw, passes, keep, messages, at)
    requires SelectedBy(rest, messages, picks) && forall k | 0 <= k < |picks| :: picks[k] >= |Leading(messages)|
    ensures Traces(raw, passes, keep, Leading(messages) + [RecoverySystem()] + rest, next)
    ensures Left(next) + (|messages| - |Leading(messages)| - |rest|) == Left(at)
  {
    hide IsNormalOf, RecoverySystem, Leading, Left;
    var n, after := |Leading(messages)|, Leading(messages) + [RecoverySystem()] + rest;
    var later := seq(|picks|, k requires 0 <= k < |picks| => at[picks[k]]);
    next := at[..n] + [-1] + later;
    forall k | n <= k < |at|
      ensures at[k] != -1
    {
      assert TracesOne(raw, passes, keep, messages, at, k);
    }
    CutIsLed(messages, rest);
    forall i: nat | i < |next|
      ensures TracesOne(raw, passes, keep, after, next, i)
    {
      if i < n {
        assert TracesOne(raw, passes, keep, messages, at, i);
      } else if i > n {
        assert TracesOne(raw, passes, keep, messages, at, picks[i - n - 1]);
        assert after[i] == rest[i - n - 1];
      }
    }
    LeftAfterCut(at, n, later);
  }

  lemma LeftAfterCut(at: seq<int>, n: nat, later: seq<int>)
    requires n <= |at| && forall k | n <= k < |at| :: at[k] != -1
    requires forall k | 0 <= k < |later| :: later[k] != -1
    ensures Left(at[..n] + [-1] + later) + (|at| - n - |later|) == Left(at)
  {
    hide Left;
    assert at == at[..n] + at[n..];
    LeftConcat(at[..n], at[n..]);
    AllLeft(at[n..]);
    LeftConcat(at[..n] + [-1], later);
    LeftConcat(at[..n], [-1]);
    AllLeft(later);
    OneInserted();
  }

  lemma OneInserted()
    ensures Left([-1]) == 0
  {
  }

  lemma CutIsLed(messages: seq<Message>, rest: seq<Message>)
    ensures |Leading(Leading(messages) + [RecoverySystem()] + rest)| > |Leading(messages)|
  {
    hide Sentence;
    var cut, n := Leading(messages) + [RecoverySystem()] + rest, |Leading(messages)|;
    assert forall j | 0 <= j <= n :: cut[j] == if j < n then Leading(messages)[j] else RecoverySystem();
  }

  // ----- The loop -----

  /** The messages behind the leading ones that a cut at an assistant message keeps. */
  lemma CutPicks(messages: seq<Message>, i: nat) returns (picks: seq<nat>)
    requires i < |messages| && messages[i].role == Assistant
    ensures SelectedBy(ContextUser(messages, i) + messages[i..], messages, picks)
    ensures forall k | 0 <= k < |picks| :: picks[k] >= |Leading(messages)|
  {
    hide Leading, LastUser, ContextUser;
    CutOrder(messages, i);
    var y := SelectContext(messages, i);
    var z := SelectSlice(messages, i, |messages|);
    SelectConcat(ContextUser(messages, i), messages[i..], messages, y, z);
    picks := y + z;
  }

  lemma TracesAfterNotice(raw: seq<Message>, passes: nat, keep: bool, messages: seq<Message>, at: seq<int>, i: nat)
    returns (next: seq<int>)
    requires Traces(raw, passes, keep, messages, at) && i < |messages| && messages[i].role == Assistant
    ensures Traces(raw, passes, keep, CutAt(messages, i), next)
    ensures Left(next) + (i - |Leading(messages)| - |ContextUser(messages, i)|) == Left(at)
  {
    hide RecoverySystem, Leading, ContextUser, Traces, Left, SelectedBy;
    var picks := CutPicks(messages, i);
    next := TracesAfterCut(raw, passes, keep, messages, at, ContextUser(messages, i) + messages[i..], picks);
    Reassociate(Leading(messages) + [RecoverySystem()], ContextUser(messages, i), messages[i..]);
  }

  /** A recovery step reports as dropped exactly the client's messages that it loses. */
  lemma TracesAfterRecovery(raw: seq<Message>, passes: nat, keep: bool, messages: seq<Message>, missing: seq<nat>,
                            at: seq<int>)
    returns (next: seq<int>)
    requires Traces(raw, passes, keep, messages, at)
    ensures var r := RecoverFromMissing(messages, missing);
      Traces(raw, passes, keep, r.messages, next) && Left(next) + r.dropped == Left(at)
  {
    hide RecoverySystem, NoticeText, Leading, ContextUser, Traces, Left, LastUser;
    var i := NoticeAfterMissing(messages, missing, |messages|);
    var user := LastUser(messages);
    if i >= 0 {
      next := TracesAfterNotice(raw, passes, keep, messages, at, i);
    } else if user >= 0 {
      LastUserKept(messages);
      next := TracesAfterCut(raw, passes, keep, messages, at, [messages[user]], [user]);
    } else {
      next := at;
    }
  }

  lemma {:induction false} TracesAfterLoop(state: LoopState, namespace: Namespace, settings: Settings,
                                           raw: seq<Message>, passes: nat, at: seq<int>)
    returns (total: nat, next: seq<int>)
    requires MissingAreAssistants(state.history) && Traces(raw, passes, settings.thinking, state.history.messages, at)
    ensures var end := RepairLoop(state, namespace, settings);
      && total >= passes && Traces(raw, total, settings.thinking, end.history.messages, next)
      && Left(next) + (end.dropped - state.dropped) == Left(at) && end.dropped >= state.dropped
      && (end.dropped == state.dropped ==> end.history == state.history && total == passes)
    decreases AssistantCount(state.history.messages)
  {
    hide NormalizeAll, Traces, Left, AssistantCount, RecoverFromMissing;
    total, next := passes, at;
    if state.history.missing != [] && settings.strategy == Recover {
      LoopProgress(state, namespace, settings);
      var r, step := RecoverFromMissing(state.history.messages, state.history.missing), LoopStep(state, namespace,
                                                                                                settings);
      if !step.done {
        DropsSomething(state.history.messages, state.history.missing);
        var cut := TracesAfterRecovery(raw, passes, settings.thinking, state.history.messages, state.history.missing,
                                       at);
        AllHaveForm(state.history.backend, r.messages, Some(namespace), RepairPolicy(settings));
        TracesAfterPass(raw, passes, settings.thinking, r.messages, cut, step.state.history.messages);
        total, next := TracesAfterLoop(step.state, namespace, settings, raw, passes + 1, cut);
      }
    }
  }

  lemma DropsSomething(messages: seq<Message>, missing: seq<nat>)
    ensures RecoverFromMissing(messages, missing).dropped >= 0
  {
    hide RecoverySystem, NoticeText, Rewrites;
    if LastUser(messages) >= 0 || NoticeAfterMissing(messages, missing, |messages|) >= 0 {
      RecoveryConserves(messages, missing);
      assert Rewrites(messages, RecoverFromMissing(messages, missing).messages,
                      RecoverFromMissing(messages, missing).dropped);
      RewritesDropped(messages, RecoverFromMissing(messages, missing).messages,
                      RecoverFromMissing(messages, missing).dropped);
    }
  }

  lemma RewritesDropped(before: seq<Message>, after: seq<Message>, dropped: int)
    requires Rewrites(before, after, dropped)
    ensures dropped >= 0
  {
  }

  // ----- The whole preparation -----

  /** `after` is `before` without a notice at its start and the line breaks behind it. */
  ghost predicate NoticeRemoved(before: string, after: string) {
    if !IsPrefix(NoticeText(), before) then after == before
    else exists breaks :: IsRemoved(before, breaks, after)
  }

  ghost predicate IsRemoved(before: string, breaks: string, after: string) {
    && before == NoticeText() + breaks + after
    && (forall c | c in breaks :: c == '\r' || c == '\n')
    && (after == "" || (after[0] != '\r' && after[0] != '\n'))
  }

  lemma {:induction false} TrimmedBreaks(s: string) returns (breaks: string)
    ensures s == breaks + Thinking.TrimNewlines(s)
    ensures forall c | c in breaks :: c == '\r' || c == '\n'
    ensures var t := Thinking.TrimNewlines(s); t == "" || (t[0] != '\r' && t[0] != '\n')
  {
    breaks := "";
    if s != "" && Thinking.IsNewline(s[0]) {
      var more := TrimmedBreaks(s[1..]);
      breaks := [s[0]] + more;
      assert s == [s[0]] + s[1..];
    }
  }

  /** Notice, line breaks and a text that does not begin with one leave exactly that text. */
  lemma NoticeIsRemoved(message: Message)
    requires message.role == Assistant && message.content.Some?
    ensures var out := StripNotice(message);
      out == message.(content := out.content) && out.content.Some?
      && NoticeRemoved(message.content.value, out.content.value)
  {
    hide NoticeText;
    var content := message.content.value;
    if IsPrefix(NoticeText(), content) {
      var rest := content[|NoticeText()|..];
      var breaks := TrimmedBreaks(rest);
      Reassociate(NoticeText(), breaks, Thinking.TrimNewlines(rest));
      assert IsRemoved(content, breaks, Thinking.TrimNewlines(rest));
    }
  }

  /** The notice that goes in front of the first answer is taken off again on its way upstream: a text that does
      not begin with a line break comes back. */
  lemma PrefixedIsStripped(answers: seq<Message>)
    requires answers != [] && answers[0].role == Assistant
    requires var text := GivenText(answers[0]); text == "" || (text[0] != '\r' && text[0] != '\n')
    ensures var prefixed := PrefixContent(answers, NoticeContent());
      && |prefixed| == |answers| && prefixed[1..] == answers[1..] && HasNotice(prefixed[0])
      && StripNotice(prefixed[0]) == answers[0].(content := Some(GivenText(answers[0])))
  {
    hide NoticeText;
    var text := GivenText(answers[0]);
    NoticeTextShape();
    var prefixed := PrefixContent(answers, NoticeContent())[0];
    assert prefixed.content == Some((NoticeText() + "\n\n") + text);
    BreaksAreTrimmed(text);
    assert prefixed.content.value == NoticeText() + ("\n\n" + text);
    assert prefixed.content.value[|NoticeText()|..] == "\n\n" + text;
  }

  lemma BreaksAreTrimmed(text: string)
    requires text == "" || (text[0] != '\r' && text[0] != '\n')
    ensures Thinking.TrimNewlines("\n\n" + text) == text
  {
    var once := "\n" + text;
    assert ("\n\n" + text)[1..] == once && once[1..] == text;
    assert Thinking.TrimNewlines(once) == Thinking.TrimNewlines(text);
  }

  /** `out` is what the upstream gets for the client's message `raw`. */
  ghost predicate SentFor(raw: Message, passes: nat, thinking: bool, out: Message) {
    && HasForm(raw, GivenText(out), out) && HasReasoning(raw, thinking, thinking, out)
    && (raw.role == Assistant ==> NoticeRemoved(StripTimes(passes, GivenText(raw)), GivenText(out)))
  }

  lemma SentAfterRemoval(raw: Message, passes: nat, thinking: bool, message: Message)
    requires IsNormalOf(raw, passes, thinking, thinking, message)
    ensures SentFor(raw, passes, thinking, StripNotice(message))
  {
    hide NoticeText, AreNormalCalls, NoticeRemoved, StripTimes;
    if message.role == Assistant {
      RoleOfAssistant(raw, passes, thinking, message);
      NoticeIsRemoved(message);
    }
  }

  lemma RoleOfAssistant(raw: Message, passes: nat, thinking: bool, message: Message)
    requires IsNormalOf(raw, passes, thinking, thinking, message) && message.role == Assistant
    ensures raw.role == Assistant
  {
    hide AreNormalCalls, StripTimes;
  }

  /** The boundary pre-pass cuts the history. */
  predicate HasBoundary(settings: Settings, raw: seq<Message>) {
    settings.thinking && settings.strategy == Recover && RecoveryBoundary(PreRepair(settings, raw)).Active?
  }

  /** How many messages the boundary pre-pass drops. */
  function Retired(settings: Settings, raw: seq<Message>): nat {
    if HasBoundary(settings, raw) then RecoveryBoundary(PreRepair(settings, raw)).retired else 0
  }

  lemma PreTraces(settings: Settings, raw: seq<Message>) returns (at: seq<int>)
    ensures at == seq(|raw|, i => i) && Left(at) == |raw|
    ensures Traces(raw, 1, settings.thinking, PreRepair(settings, raw), at)
  {
    hide NormalizeAll, HasForm;
    at := seq(|raw|, i => i);
    AllLeft(at);
    AllHaveForm(NoStore, raw, None, Policy(false, settings.thinking));
  }

  lemma StartTraces(settings: Settings, raw: seq<Message>) returns (at: seq<int>)
    ensures Traces(raw, 1, settings.thinking, StartOf(settings, raw), at)
    ensures Left(at) + Retired(settings, raw) == |raw|
    ensures !HasBoundary(settings, raw) ==> at == seq(|raw|, i => i)
  {
    hide PreRepair, NoticeText, RecoverySystem, Traces, Left, Leading, ContextUser, CutAt;
    var pre := PreRepair(settings, raw);
    at := PreTraces(settings, raw);
    if HasBoundary(settings, raw) {
      BoundaryConserves(pre);
      CutOrder(pre, LastNotice(pre));
      at := TracesAfterNotice(raw, 1, settings.thinking, pre, at, LastNotice(pre));
    }
  }

  /** The normalised history behind the outgoing one. */
  lemma PreparedTraces(backend: Backend, settings: Settings, raw: seq<Message>) returns (passes: nat, at: seq<int>)
    ensures passes >= 2
    ensures Traces(raw, passes, settings.thinking, Repaired(backend, settings, raw).history.messages, at)
    ensures var end := Repaired(backend, settings, raw);
      && Left(at) + end.dropped + Retired(settings, raw) == |raw|
      && (end.dropped == 0 ==> end == FirstPass(backend, settings, raw).(recovered := end.recovered,
                                                                         notice := end.notice) && passes == 2)
  {
    hide NormalizeAll, PreRepair, Traces, Left, HasBoundary, CacheNamespace, MessagesForRepair, RepairLoop;
    var first := FirstPass(backend, settings, raw);
    at := StartTraces(settings, raw);
    AllHaveForm(backend, StartOf(settings, raw), Some(SessionNamespace(settings, raw)), RepairPolicy(settings));
    TracesAfterPass(raw, 1, settings.thinking, StartOf(settings, raw), at, first.history.messages);
    passes, at := TracesAfterLoop(first, SessionNamespace(settings, raw), settings, raw, 2, at);
  }

  /** For every request, store and strategy: each outgoing message is the recovery instruction or what normal
      form makes of one of the client's messages, in the client's order, and the client's messages that are not
      sent are those counted as dropped or retired by the boundary pre-pass. */
  lemma OutgoingDescends(backend: Backend, settings: Settings, raw: seq<Message>)
    returns (passes: nat, at: seq<int>)
    ensures var prepared := PrepareRequest(backend, settings, raw);
      && |at| == |prepared.outgoing| && InOrder(at) && passes >= 2
      && (forall i | 0 <= i < |at| ::
            if at[i] == -1 then prepared.outgoing[i] == RecoverySystem()
            else 0 <= at[i] < |raw| && SentFor(raw[at[i]], passes, settings.thinking, prepared.outgoing[i]))
      && Left(at) + prepared.dropped + Retired(settings, raw) == |raw|
  {
    hide Repaired, SentFor, IsNormalOf, StripNotice, RecoverySystem, Leading, CacheNamespace, PreRepair;
    passes, at := PreparedTraces(backend, settings, raw);
    var messages := Repaired(backend, settings, raw).history.messages;
    forall i: nat | i < |at|
      ensures if at[i] == -1 then StripNotice(messages[i]) == RecoverySystem()
              else 0 <= at[i] < |raw| && SentFor(raw[at[i]], passes, settings.thinking, StripNotice(messages[i]))
    {
      assert TracesOne(raw, passes, settings.thinking, messages, at, i);
      if at[i] == -1 {
        InstructionHasNoNotice();
      } else {
        SentAfterRemoval(raw[at[i]], passes, settings.thinking, messages[i]);
      }
    }
  }

  lemma InstructionHasNoNotice()
    ensures StripNotice(RecoverySystem()) == RecoverySystem()
  {
    hide Sentence, NoticeText;
  }

  /** No assistant text shows a notice when it is first stripped. */
  ghost predicate ShowsNoNotice(raw: seq<Message>) {
    forall i | 0 <= i < |raw| && raw[i].role == Assistant ::
      !IsPrefix(NoticeText(), StripTimes(1, GivenText(raw[i])))
  }

  lemma NoBoundaryWithoutNotice(settings: Settings, raw: seq<Message>)
    requires ShowsNoNotice(raw)
    ensures !HasBoundary(settings, raw)
  {
    hide NormalizeAll, NoticeText, RecoverySystem, AreNormalCalls, StripTimes, CutAt;
    AllHaveForm(NoStore, raw, None, Policy(false, settings.thinking));
    forall i: nat | i < |raw|
      ensures !HasNotice(PreRepair(settings, raw)[i])
    {
      assert IsNormalOf(raw[i], 1, settings.thinking, false, PreRepair(settings, raw)[i]);
    }
  }

  /** A request without a notice from which recovery drops nothing is sent message for message. */
  lemma EveryMessageIsSent(backend: Backend, settings: Settings, raw: seq<Message>)
    requires (settings.thinking && settings.strategy == Recover) ==> ShowsNoNotice(raw)
    requires PrepareRequest(backend, settings, raw).dropped == 0
    ensures var outgoing := PrepareRequest(backend, settings, raw).outgoing;
      |outgoing| == |raw| && forall i | 0 <= i < |raw| :: SentFor(raw[i], 2, settings.thinking, outgoing[i])
  {
    hide SentFor, IsNormalOf, StripNotice, Repaired, ShowsNoNotice, FirstPass, CacheNamespace, PreRepair, Left;
    var passes, at := PreparedTraces(backend, settings, raw);
    if settings.thinking && settings.strategy == Recover {
      NoBoundaryWithoutNotice(settings, raw);
    }
    assert !HasBoundary(settings, raw);
    FirstPassTraces(backend, settings, raw);
    var messages := FirstPass(backend, settings, raw).history.messages;
    forall i: nat | i < |raw|
      ensures SentFor(raw[i], 2, settings.thinking, StripNotice(messages[i]))
    {
      assert TracesOne(raw, 2, settings.thinking, messages, seq(|raw|, i => i), i);
      SentAfterRemoval(raw[i], 2, settings.thinking, messages[i]);
    }
  }

  lemma FirstPassTraces(backend: Backend, settings: Settings, raw: seq<Message>)
    requires !HasBoundary(settings, raw)
    ensures Traces(raw, 2, settings.thinking, FirstPass(backend, settings, raw).history.messages, seq(|raw|, i => i))
  {
    hide NormalizeAll, Traces, Left, HasBoundary, CacheNamespace, MessagesForRepair;
    var at := StartTraces(settings, raw);
    AllHaveForm(backend, StartOf(settings, raw), Some(SessionNamespace(settings, raw)), RepairPolicy(settings));
    TracesAfterPass(raw, 1, settings.thinking, StartOf(settings, raw), at,
                    FirstPass(backend, settings, raw).history.messages);
  }

  /** Without thinking, and in strict mode, nothing is ever dropped. */
  lemma OnlyRecoveryDrops(backend: Backend, settings: Settings, raw: seq<Message>)
    requires !settings.thinking || settings.strategy == Reject
    ensures PrepareRequest(backend, settings, raw).dropped == 0
  {
    hide NormalizeAll;
    var start := StartOf(settings, raw);
    if !settings.thinking {
      NothingMissingWithoutRepair(backend, start, Some(SessionNamespace(settings, raw)), RepairPolicy(settings));
    }
  }

  lemma {:induction false} NothingMissingWithoutRepair(backend: Backend, raw: seq<Message>,
                                                       namespace: Option<Namespace>, policy: Policy)
    requires !policy.repair
    ensures NormalizeAll(backend, raw, namespace, policy).missing == []
    ensures NormalizeAll(backend, raw, namespace, policy).patched == 0
    ensures NormalizeAll(backend, raw, namespace, policy).backend == backend
  {
    if raw != [] {
      NothingMissingWithoutRepair(backend, raw[..|raw| - 1], namespace, policy);
    }
  }
}
