/** A request on which the one-shot theorem fails: its notice shows only after the second strip. */
module LateNotice {
  import opened Messages
  import opened Keys
  import opened ReasoningStore
  import opened Normalize
  import opened Recovery
  import opened Prepare
  import opened OneShot
  import KeyStability
  import Thinking

  /** A question, a turn whose reasoning is lost, and a turn that hides a notice. */
  function Request(): seq<Message> {
    var call := ToolCall(Given("c"), None, None, None);
    [PlainMessage(User, "q"),
     Message(Assistant, Some(""), None, None, None, [call], None),
     PlainMessage(Assistant, Thinking.Nested(NoticeText()))]
  }

  lemma HiddenThenShown()
    ensures var once := Thinking.Strip(Thinking.Nested(NoticeText()));
      !IsPrefix(NoticeText(), once) && Thinking.Strip(once) == NoticeText()
  {
    hide NoticeText, Thinking.Nested, Thinking.Strip;
    NoticeTextShape();
    Thinking.StripIsNotIdempotent(NoticeText());
    assert Thinking.Strip(Thinking.Nested(NoticeText()))[0] == '<';
  }

  lemma EmptyStays()
    ensures Thinking.Strip("") == "" && !IsPrefix(NoticeText(), "")
  {
    NoticeTextShape();
  }

  /** The first pass sees no notice. */
  lemma FirstSight(settings: Settings, i: nat)
    requires i < 3
    ensures var m := PreRepair(settings, Request())[i];
      && !HasNotice(m) && m.role == Request()[i].role && m.reasoning == None
      && (i == 1 ==> m.content == Some("") && m.toolCalls != [])
      && (i == 2 ==> m.content == Some(Thinking.Strip(Thinking.Nested(NoticeText()))) && m.toolCalls == [])
  {
    hide NoticeText, Thinking.Nested, Thinking.Strip, NeedsReasoning;
    var policy := Policy(false, settings.thinking);
    KeyStability.PlainAt(NoStore, Request(), None, policy, i);
    KeyStability.NormalizedAt(NoStore, Request(), None, policy, i);
    HiddenThenShown();
    EmptyStays();
  }

  lemma NoBoundary(settings: Settings)
    ensures MessagesForRepair(settings, PreRepair(settings, Request())) == PreRepair(settings, Request())
  {
    hide NoticeText, PreRepair, Request, HasNotice;
    var pre := PreRepair(settings, Request());
    assert |Request()| == 3 by { ThreeMessages(); }
    forall i: nat | i < |pre|
      ensures !HasNotice(pre[i])
    {
      FirstSight(settings, i);
    }
  }

  lemma ThreeMessages()
    ensures |Request()| == 3
    ensures Request()[0].role == User && Request()[1].role == Assistant && Request()[2].role == Assistant
    ensures Request()[2].content == Some(Thinking.Nested(NoticeText()))
  {
    hide NoticeText, Thinking.Nested;
  }

  /** In the repairing pass the second turn is missing and the third shows its notice. */
  lemma SecondSight(env: Env, settings: Settings)
    requires settings.thinking
    ensures var first := FirstPass(Backed(env, Table(map[], 0)), settings, Request()).history;
      |first.messages| == 3 && 1 in first.missing && HasNotice(first.messages[2])
  {
    hide NoticeText, PreRepair, Request, MessagesForRepair, Thinking.Strip, NormalizeAll, Thinking.Nested, MessageKeys;
    var pre, backend := PreRepair(settings, Request()), Backed(env, Table(map[], 0));
    var namespace, policy := Some(CacheNamespace(settings, pre)), RepairPolicy(settings);
    NoBoundary(settings);
    ThreeMessages();
    FirstSight(settings, 0);
    FirstSight(settings, 1);
    FirstSight(settings, 2);
    HiddenThenShown();
    KeyStability.PlainAt(backend, pre, namespace, policy, 2);
    KeyStability.NormalizedAt(backend, pre, namespace, policy, 1);
    NoAssistantNoWrite(backend, pre[..1], namespace, policy);
  }

  /** The hypothesis of the one-shot theorem is needed: for this request, over an empty table, recovery does
      cut at a notice. */
  lemma OneShotFails(env: Env, settings: Settings)
    requires settings.thinking && settings.strategy == Recover
    ensures var first := FirstPass(Backed(env, Table(map[], 0)), settings, Request()).history;
      && !NoLateNotices(Request())
      && |first.messages| == 3
      && NoticeAfterMissing(first.messages, first.missing, 3) == 2
      && RecoverFromMissing(first.messages, first.missing).messages == CutAt(first.messages, 2)
  {
    hide NoticeText, Request, FirstPass, CutAt, Thinking.Nested, Thinking.Strip, HasNotice;
    SecondSight(env, settings);
    var first := FirstPass(Backed(env, Table(map[], 0)), settings, Request()).history;
    var k :| 0 <= k < |first.missing| && first.missing[k] == 1;
    assert MissingBefore(first.missing, 2);
    ThreeMessages();
    LateNoticeExists();
    assert Request()[2] in Request();
  }
}
