/** What a prepared request reports about itself: the patched, missing and recovered turns. */
module Report {
  import opened Messages
  import opened Keys
  import opened NormalForm
  import opened Normalize
  import opened Recovery
  import opened Prepare
  import opened Upstream
  import OneShot
  import ReplayContract

  /** An assistant message that came without reasoning and goes out with some. */
  predicate WasRestored(raw: Message, out: Message) {
    raw.role == Assistant && raw.reasoning == None && out.reasoning != None
  }

  function Restored(raw: seq<Message>, out: seq<Message>): nat
    requires |raw| == |out|
  {
    if raw == [] then 0 else
    var n := |raw| - 1;
    Restored(raw[..n], out[..n]) + if WasRestored(raw[n], out[n]) then 1 else 0
  }

  lemma OneIsCounted(backend: Backend, raw: Message, namespace: Option<Namespace>, policy: Policy, prior: seq<Message>)
    ensures var one := NormalizeOne(backend, raw, namespace, policy, prior);
      one.outcome == Patched <==> WasRestored(raw, one.message)
  {
    hide BackendLookup, NeedsReasoning;
  }

  /** A pass counts as patched exactly the turns that it gives reasoning to. */
  lemma {:induction false} PatchedIsCounted(backend: Backend, raw: seq<Message>, namespace: Option<Namespace>,
                                            policy: Policy)
    ensures var h := NormalizeAll(backend, raw, namespace, policy); h.patched == Restored(raw, h.messages)
  {
    hide NormalizeOne, WasRestored;
    if raw != [] {
      var n := |raw| - 1;
      PatchedIsCounted(backend, raw[..n], namespace, policy);
      var before := NormalizeAll(backend, raw[..n], namespace, policy);
      OneIsCounted(before.backend, raw[n], namespace, policy, before.messages);
      var h := NormalizeAll(backend, raw, namespace, policy);
      assert h.messages[..n] == before.messages;
    }
  }

  lemma {:induction false} RestoredAlike(raw: seq<Message>, out: seq<Message>, raw': seq<Message>, out': seq<Message>)
    requires |raw| == |out| == |raw'| == |out'|
    requires forall i | 0 <= i < |raw| :: WasRestored(raw[i], out[i]) <==> WasRestored(raw'[i], out'[i])
    ensures Restored(raw, out) == Restored(raw', out')
  {
    hide WasRestored;
    if raw != [] {
      var n := |raw| - 1;
      RestoredAlike(raw[..n], out[..n], raw'[..n], out'[..n]);
    }
  }

  lemma PreKeepsReasoning(settings: Settings, raw: seq<Message>, i: nat)
    requires i < |raw|
    ensures var pre := PreRepair(settings, raw)[i];
      && (pre.role == Assistant <==> raw[i].role == Assistant)
      && (raw[i].role == Assistant ==> pre.reasoning == if settings.thinking then raw[i].reasoning else None)
  {
    hide NormalizeAll, StripTimes, AreNormalCalls;
    AllHaveForm(NoStore, raw, None, Policy(false, settings.thinking));
    assert IsNormalOf(raw[i], 1, settings.thinking, false, PreRepair(settings, raw)[i]);
  }

  /** When nothing is cut, the reported number of patched turns is the number of the client's assistant messages
      that came without reasoning and go out with some. */
  lemma PatchedIsReported(backend: Backend, settings: Settings, raw: seq<Message>)
    requires !HasBoundary(settings, raw) && PrepareRequest(backend, settings, raw).dropped == 0
    ensures var prepared := PrepareRequest(backend, settings, raw);
      |prepared.outgoing| == |raw| && prepared.patched == Restored(raw, prepared.outgoing)
  {
    hide NormalizeAll, PreRepair, CacheNamespace, RepairLoop, StripNotice, Traces, Left;
    var pre, first := PreRepair(settings, raw), FirstPass(backend, settings, raw).history;
    var passes, at := PreparedTraces(backend, settings, raw);
    PatchedIsCounted(backend, StartOf(settings, raw), Some(SessionNamespace(settings, raw)), RepairPolicy(settings));
    assert StartOf(settings, raw) == pre;
    if !settings.thinking {
      NothingMissingWithoutRepair(backend, pre, Some(SessionNamespace(settings, raw)), RepairPolicy(settings));
      NothingKept(backend, pre, Some(SessionNamespace(settings, raw)), RepairPolicy(settings));
    }
    forall i: nat | i < |raw|
      ensures WasRestored(pre[i], first.messages[i])
         <==> WasRestored(raw[i], StripNotices(first.messages)[i])
    {
      PreKeepsReasoning(settings, raw, i);
      NoticeIsNotReasoning(first.messages[i]);
    }
    RestoredAlike(pre, first.messages, raw, StripNotices(first.messages));
  }

  lemma NoticeIsNotReasoning(message: Message)
    ensures StripNotice(message).reasoning == message.reasoning && StripNotice(message).role == message.role
  {
    hide NoticeText;
  }

  lemma NothingKept(backend: Backend, raw: seq<Message>, namespace: Option<Namespace>, policy: Policy)
    requires !policy.keep
    ensures forall i | 0 <= i < |raw| && raw[i].role == Assistant ::
      NormalizeAll(backend, raw, namespace, policy).messages[i].reasoning == None
  {
    hide NormalizeAll, HasForm;
    AllHaveForm(backend, raw, namespace, policy);
  }

  /** A request that is cut at no notice reports as recovered the turns that its first pass missed, and tells the
      client about it with the one notice. */
  lemma RecoveredIsReported(backend: Backend, settings: Settings, raw: seq<Message>)
    requires settings.thinking && settings.strategy == Recover && ReplayContract.HasUser(raw)
    requires OneShot.FoundBeforeNotices(backend, StartOf(settings, raw), Some(SessionNamespace(settings, raw)))
    ensures var first, prepared := FirstPass(backend, settings, raw).history, PrepareRequest(backend, settings, raw);
      && prepared.recovered == |first.missing| && prepared.missing == 0
      && prepared.notice == (if first.missing == [] then "" else NoticeContent())
      && prepared.dropped == (if first.missing == [] then 0
                              else |first.messages| - |Leading(first.messages)| - 1)
  {
    hide RecoverySystem, NoticeText, NoticeContent, NormalizeAll, OneShot.FoundBeforeNotices, ReplayContract.HasUser,
      NoticeAfterMissing, ReplayContract.Replayed;
    OneShot.LoopRunsAtMostOnce(backend, settings, raw);
    OneShot.FirstPassKeepsUser(backend, settings, raw);
    OneShot.RecoverReplaysWhenever(backend, settings, raw);
    ReplayContract.ContractIffNothingMissing(backend, settings, raw);
    OneShot.NoticeIff(backend, settings, raw);
  }
}
