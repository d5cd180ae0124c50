/** Exactly when the recovery loop, after the boundary pre-pass, runs at most once and cuts at no notice. */
module OneShot {
  import opened Messages
  import opened Keys
  import opened Normalize
  import opened Recovery
  import opened Prepare
  import opened ReplayContract
  import KeyStability
  import Thinking

  /** Stripping a content a second time uncovers no notice at its start. Content on which stripping
      is idempotent has this property. */
  ghost predicate NoLateNotice(content: string) {
    var once := Thinking.Strip(content);
    IsPrefix(NoticeText(), Thinking.Strip(once)) ==> IsPrefix(NoticeText(), once)
  }

  ghost predicate NoLateNotices(raw: seq<Message>) {
    forall m | m in raw && m.role == Assistant :: NoLateNotice(m.content.GetOr(""))
  }

  lemma IdempotentStripHasNoLateNotice(content: string)
    requires Thinking.Strip(Thinking.Strip(content)) == Thinking.Strip(content)
    ensures NoLateNotice(content)
  {
  }

  /** The hypothesis is not empty: a content whose notice only the second strip uncovers. */
  lemma LateNoticeExists()
    ensures !NoLateNotice(Thinking.Nested(NoticeText()))
  {
    hide NoticeText, Thinking.Nested, Thinking.Strip;
    NoticeTextShape();
    Thinking.StripIsNotIdempotent(NoticeText());
    assert Thinking.Strip(Thinking.Nested(NoticeText()))[0] == '<';
    assert IsPrefix(NoticeText(), NoticeText());
  }

  /** A message that shows no notice after the first pass shows none after the second. */
  lemma NoticeStaysAway(settings: Settings, raw: seq<Message>, i: nat, again: Message)
    requires i < |raw| && NoLateNotices(raw)
    requires !HasNotice(PreRepair(settings, raw)[i])
    requires again.role == NormalRole(PreRepair(settings, raw)[i].role)
    requires again.content == Plain(PreRepair(settings, raw)[i]).content
    ensures !HasNotice(again)
  {
    hide NoticeText;
    KeyStability.PlainAt(NoStore, raw, None, Policy(false, settings.thinking), i);
    assert raw[i] in raw;
  }

  /** No message before position `p` is an assistant message, and no notice stands after `p`. */
  ghost predicate NothingToCut(messages: seq<Message>, p: nat) {
    && p <= |messages|
    && (forall j | 0 <= j < p :: messages[j].role != Assistant)
    && (forall j | p < j < |messages| :: !HasNotice(messages[j]))
  }

  lemma NoNoticeAfterMissing(history: History, p: nat)
    requires MissingAreAssistants(history) && NothingToCut(history.messages, p)
    ensures NoticeAfterMissing(history.messages, history.missing, |history.messages|) == -1
  {
    hide NoticeText;
    var i := NoticeAfterMissing(history.messages, history.missing, |history.messages|);
  }

  /** The history that the first pass normalises, and where its kept notice stands. */
  function NoticePosition(pre: seq<Message>): nat {
    var i := LastNotice(pre);
    if i == -1 then 0 else |Leading(pre)| + 1 + |ContextUser(pre, i)|
  }

  /** Position `p + j` of a cut history is position `i + j` of the original. */
  lemma CutTail(pre: seq<Message>, i: nat)
    requires i <= |pre|
    ensures var p := |Leading(pre)| + 1 + |ContextUser(pre, i)|;
      && |CutAt(pre, i)| == p + |pre| - i
      && (forall j | 0 <= j < p :: CutAt(pre, i)[j].role != Assistant)
      && (forall j | p <= j < |CutAt(pre, i)| :: CutAt(pre, i)[j] == pre[i + j - p])
  {
    RecoverySystemRole();
    hide RecoverySystem, NoticeText, Leading, LastUser;
    var head, context := Leading(pre) + [RecoverySystem()], ContextUser(pre, i);
    assert forall j | 0 <= j < |head| :: head[j].role != Assistant;
    assert forall j | 0 <= j < |context| :: context[j].role != Assistant;
    CutAtParts(head, context, pre, i);
  }

  lemma CutAtParts(head: seq<Message>, context: seq<Message>, pre: seq<Message>, i: nat)
    requires i <= |pre|
    ensures var all, p := head + context + pre[i..], |head| + |context|;
      && |all| == p + |pre| - i
      && (forall j | 0 <= j < p :: all[j] == if j < |head| then head[j] else context[j - |head|])
      && (forall j | p <= j < |all| :: all[j] == pre[i + j - p])
  {
  }

  lemma FirstPassAt(backend: Backend, settings: Settings, raw: seq<Message>, j: nat)
    requires j < |MessagesForRepair(settings, PreRepair(settings, raw))|
    ensures var start, messages := MessagesForRepair(settings, PreRepair(settings, raw)),
                                   FirstPass(backend, settings, raw).history.messages;
      && |messages| == |start|
      && messages[j].role == NormalRole(start[j].role)
      && messages[j].content == Plain(start[j]).content
  {
    hide NoticeText, RecoverySystem, CutAt;
    var pre := PreRepair(settings, raw);
    KeyStability.PlainAt(backend, MessagesForRepair(settings, pre), Some(CacheNamespace(settings, pre)),
                         RepairPolicy(settings), j);
  }

  lemma NoBoundaryNoNotice(backend: Backend, settings: Settings, raw: seq<Message>)
    requires NoLateNotices(raw) && LastNotice(PreRepair(settings, raw)) == -1
    ensures forall m | m in FirstPass(backend, settings, raw).history.messages :: !HasNotice(m)
  {
    hide NoticeText, RecoverySystem;
    var pre, messages := PreRepair(settings, raw), FirstPass(backend, settings, raw).history.messages;
    assert MessagesForRepair(settings, pre) == pre;
    forall j: nat | j < |messages|
      ensures !HasNotice(messages[j])
    {
      FirstPassAt(backend, settings, raw, j);
      NoticeStaysAway(settings, raw, j, messages[j]);
    }
  }

  lemma BoundaryLeavesNothingToCut(backend: Backend, settings: Settings, raw: seq<Message>)
    requires settings.thinking && settings.strategy == Recover && NoLateNotices(raw)
    requires LastNotice(PreRepair(settings, raw)) >= 0
    ensures NothingToCut(FirstPass(backend, settings, raw).history.messages, NoticePosition(PreRepair(settings, raw)))
  {
    hide NoticeText, RecoverySystem, CutAt, FirstPass, PreRepair, MessagesForRepair, HasNotice, NoLateNotices,
      LastNotice, ContextUser, Leading;
    var pre := PreRepair(settings, raw);
    StartsAtNotice(settings, pre);
    CutTail(pre, LastNotice(pre));
    FirstPassAt(backend, settings, raw, NoticePosition(pre));
    forall j: nat | j < |CutAt(pre, LastNotice(pre))|
      ensures var m, p := FirstPass(backend, settings, raw).history.messages[j], NoticePosition(pre);
        (j < p ==> m.role != Assistant) && (p < j ==> !HasNotice(m))
    {
      NothingToCutAt(backend, settings, raw, j);
    }
  }

  lemma NothingToCutAt(backend: Backend, settings: Settings, raw: seq<Message>, j: nat)
    requires settings.thinking && settings.strategy == Recover && NoLateNotices(raw)
    requires LastNotice(PreRepair(settings, raw)) >= 0
      && j < |CutAt(PreRepair(settings, raw), LastNotice(PreRepair(settings, raw)))|
    ensures j < |FirstPass(backend, settings, raw).history.messages|
    ensures var m, p := FirstPass(backend, settings, raw).history.messages[j], NoticePosition(PreRepair(settings, raw));
      (j < p ==> m.role != Assistant) && (p < j ==> !HasNotice(m))
  {
    hide NoticeText, RecoverySystem, CutAt, FirstPass, PreRepair, MessagesForRepair, HasNotice, NoLateNotices,
      LastNotice, ContextUser, Leading;
    var pre := PreRepair(settings, raw);
    var i, p := LastNotice(pre), NoticePosition(pre);
    StartsAtNotice(settings, pre);
    CutTail(pre, i);
    FirstPassAt(backend, settings, raw, j);
    if p < j {
      NoticeStaysAway(settings, raw, i + j - p, FirstPass(backend, settings, raw).history.messages[j]);
    }
  }

  lemma StartsAtNotice(settings: Settings, pre: seq<Message>)
    requires settings.thinking && settings.strategy == Recover && LastNotice(pre) >= 0
    ensures MessagesForRepair(settings, pre) == CutAt(pre, LastNotice(pre))
    ensures forall k | LastNotice(pre) < k < |pre| :: !HasNotice(pre[k])
  {
    hide NoticeText, RecoverySystem, CutAt, HasNotice;
  }

  /** Recovery at the last user leaves no assistant message, hence nothing missing. */
  lemma LastUserRecoveryCompletes(state: LoopState, namespace: Namespace, settings: Settings)
    requires MissingAreAssistants(state.history) && state.history.missing != []
    requires NoticeAfterMissing(state.history.messages, state.history.missing, |state.history.messages|) == -1
    ensures var step := LoopStep(state, namespace, settings); step.done || step.state.history.missing == []
  {
    hide NoticeText;
    RecoverySystemRole();
    hide RecoverySystem;
    var r := RecoverFromMissing(state.history.messages, state.history.missing);
    if r.dropped != 0 {
      NoAssistantCount(r.messages);
      NormalizedIsSound(state.history.backend, r.messages, Some(namespace), RepairPolicy(settings));
      NothingMissing(NormalizeAll(state.history.backend, r.messages, Some(namespace), RepairPolicy(settings)));
    }
  }

  // ----- Exactly when recovery cuts at a notice -----

  /** In front of every message that shows a notice, the pass finds everything. */
  ghost predicate FoundBeforeNotices(backend: Backend, start: seq<Message>, namespace: Option<Namespace>) {
    forall i: nat | i < |start| && HasNotice(Plain(start[i])) ::
      NormalizeAll(backend, start[..i], namespace, Policy(true, true)).missing == []
  }

  /** A message is missing before position `i` exactly when the pass over the first `i` messages misses one. */
  lemma MissingUpTo(backend: Backend, raw: seq<Message>, namespace: Option<Namespace>, policy: Policy, i: nat)
    requires i <= |raw|
    ensures MissingBefore(NormalizeAll(backend, raw, namespace, policy).missing, i)
       <==> NormalizeAll(backend, raw[..i], namespace, policy).missing != []
  {
    hide NormalizeAll, NormalizeOne;
    var all, front := NormalizeAll(backend, raw, namespace, policy).missing,
                      NormalizeAll(backend, raw[..i], namespace, policy).missing;
    KeyStability.MissingInRange(backend, raw, namespace, policy);
    KeyStability.MissingInRange(backend, raw[..i], namespace, policy);
    forall p: nat | p < i
      ensures p in all <==> p in front
    {
      KeyStability.NormalizedAt(backend, raw, namespace, policy, p);
      KeyStability.NormalizedAt(backend, raw[..i], namespace, policy, p);
      assert raw[..i][..p] == raw[..p];
    }
    if front != [] {
      assert front[0] in front && front[0] in all;
    }
    if MissingBefore(all, i) {
      var k :| 0 <= k < |all| && all[k] < i;
      assert all[k] in all && all[k] in front;
    }
  }

  /** Recovery from a pass cuts at no notice exactly when the pass finds everything before the notices. */
  lemma NoCutIff(backend: Backend, start: seq<Message>, namespace: Option<Namespace>)
    ensures var all := NormalizeAll(backend, start, namespace, Policy(true, true));
      NoticeAfterMissing(all.messages, all.missing, |start|) == -1 <==> FoundBeforeNotices(backend, start, namespace)
  {
    hide NormalizeAll, NoticeText, Plain, MissingBefore;
    var all := NormalizeAll(backend, start, namespace, Policy(true, true));
    forall i: nat | i < |start|
      ensures HasNotice(all.messages[i]) <==> HasNotice(Plain(start[i]))
      ensures MissingBefore(all.missing, i)
         <==> NormalizeAll(backend, start[..i], namespace, Policy(true, true)).missing != []
    {
      PlainRole(start[i]);
      KeyStability.PlainAt(backend, start, namespace, Policy(true, true), i);
      MissingUpTo(backend, start, namespace, Policy(true, true), i);
    }
    hide HasNotice;
    var found := NoticeAfterMissing(all.messages, all.missing, |start|);
  }

  lemma PlainRole(message: Message)
    ensures Plain(message).role == NormalRole(message.role)
  {
    hide NormalContent;
  }

  /** Some iteration of the recovery loop cuts at a notice. */
  ghost predicate NoticeBranchTaken(state: LoopState, namespace: Namespace, settings: Settings)
    requires MissingAreAssistants(state.history)
    decreases AssistantCount(state.history.messages)
  {
    state.history.missing != [] && settings.strategy == Recover &&
    (LoopProgress(state, namespace, settings);
     var step := LoopStep(state, namespace, settings);
     || NoticeAfterMissing(state.history.messages, state.history.missing, |state.history.messages|) != -1
     || (!step.done && NoticeBranchTaken(step.state, namespace, settings)))
  }

  /** When the pass finds everything in front of the notices, the loop body runs at most once, and it does
      not cut at a notice. */
  lemma LoopRunsAtMostOnce(backend: Backend, settings: Settings, raw: seq<Message>)
    requires settings.thinking && settings.strategy == Recover
    requires FoundBeforeNotices(backend, StartOf(settings, raw), Some(SessionNamespace(settings, raw)))
    ensures var first := FirstPass(backend, settings, raw);
      && NoticeAfterMissing(first.history.messages, first.history.missing, |first.history.messages|) == -1
      && Repaired(backend, settings, raw)
         == if first.history.missing == [] then first
            else LoopStep(first, SessionNamespace(settings, raw), settings).state
  {
    hide NoticeText, RecoverySystem, FoundBeforeNotices, NormalizeAll, LoopStep, NoticeAfterMissing;
    var first, namespace := FirstPass(backend, settings, raw), SessionNamespace(settings, raw);
    NoCutIff(backend, StartOf(settings, raw), Some(namespace));
    if first.history.missing != [] {
      LastUserRecoveryCompletes(first, namespace, settings);
      LoopEnds(first, namespace, settings);
    }
  }

  /** Exactly when no iteration of the loop cuts at a notice, for every request and every store. */
  lemma NoticeBranchIff(backend: Backend, settings: Settings, raw: seq<Message>)
    requires settings.thinking && settings.strategy == Recover
    ensures NoticeBranchTaken(FirstPass(backend, settings, raw), SessionNamespace(settings, raw), settings)
       <==> !FoundBeforeNotices(backend, StartOf(settings, raw), Some(SessionNamespace(settings, raw)))
  {
    hide NoticeText, RecoverySystem, FoundBeforeNotices, NormalizeAll, LoopStep;
    var first, namespace := FirstPass(backend, settings, raw), SessionNamespace(settings, raw);
    NoCutIff(backend, StartOf(settings, raw), Some(namespace));
    if first.history.missing == [] {
      NothingToCutAtAll(first.history.messages);
    } else if FoundBeforeNotices(backend, StartOf(settings, raw), Some(namespace)) {
      LastUserRecoveryCompletes(first, namespace, settings);
    }
  }

  lemma NothingToCutAtAll(messages: seq<Message>)
    ensures NoticeAfterMissing(messages, [], |messages|) == -1
  {
  }

  /** Contents that hide no late notice are enough, whatever the store holds: after the boundary pre-pass
      nothing missing precedes a notice. */
  lemma NoLateNoticesAreEnough(backend: Backend, settings: Settings, raw: seq<Message>)
    requires settings.thinking && settings.strategy == Recover && NoLateNotices(raw)
    ensures FoundBeforeNotices(backend, StartOf(settings, raw), Some(SessionNamespace(settings, raw)))
  {
    hide NoticeText, RecoverySystem, FoundBeforeNotices, NormalizeAll, NoticeAfterMissing;
    var first := FirstPass(backend, settings, raw);
    if LastNotice(PreRepair(settings, raw)) == -1 {
      NoBoundaryNoNotice(backend, settings, raw);
      NoNoticeNoCut(first.history.messages, first.history.missing);
    } else {
      BoundaryLeavesNothingToCut(backend, settings, raw);
      NoNoticeAfterMissing(first.history, NoticePosition(PreRepair(settings, raw)));
    }
    NoCutIff(backend, StartOf(settings, raw), Some(SessionNamespace(settings, raw)));
  }

  lemma NoNoticeNoCut(messages: seq<Message>, missing: seq<nat>)
    requires forall m | m in messages :: !HasNotice(m)
    ensures NoticeAfterMissing(messages, missing, |messages|) == -1
  {
    hide HasNotice;
    var i := NoticeAfterMissing(messages, missing, |messages|);
  }

  lemma LoopEnds(state: LoopState, namespace: Namespace, settings: Settings)
    requires MissingAreAssistants(state.history) && state.history.missing != [] && settings.strategy == Recover
    requires var step := LoopStep(state, namespace, settings); step.done || step.state.history.missing == []
    ensures RepairLoop(state, namespace, settings) == LoopStep(state, namespace, settings).state
  {
    hide LoopStep;
    LoopProgress(state, namespace, settings);
  }

  // ----- Without a user message -----

  lemma NormalizedAddsNoUser(backend: Backend, raw: seq<Message>, namespace: Option<Namespace>, policy: Policy)
    requires !HasUser(raw)
    ensures !HasUser(NormalizeAll(backend, raw, namespace, policy).messages)
  {
    var messages := NormalizeAll(backend, raw, namespace, policy).messages;
    forall i: nat | i < |messages|
      ensures NormalRole(messages[i].role) != User
    {
      KeyStability.PlainAt(backend, raw, namespace, policy, i);
    }
  }

  lemma CutAddsNoUser(messages: seq<Message>, i: nat)
    requires i <= |messages| && !HasUser(messages)
    ensures !HasUser(CutAt(messages, i))
  {
    RecoverySystemRole();
    hide RecoverySystem, NoticeText;
    if user :| 0 <= user < i && messages[user].role == User {
      MemberUser(messages, user);
    }
    assert ContextUser(messages, i) == [];
    var cut, n := CutAt(messages, i), |Leading(messages)|;
    forall k: nat | k < |cut|
      ensures NormalRole(cut[k].role) != User
    {
      assert k > n ==> cut[k] == messages[i + k - n - 1];
    }
  }

  lemma FirstPassAddsNoUser(backend: Backend, settings: Settings, raw: seq<Message>)
    requires !HasUser(raw)
    ensures LastUser(FirstPass(backend, settings, raw).history.messages) == -1
  {
    hide NoticeText, RecoverySystem, HasUser, CutAt;
    var pre := PreRepair(settings, raw);
    NormalizedAddsNoUser(NoStore, raw, None, Policy(false, settings.thinking));
    if MessagesForRepair(settings, pre) != pre {
      CutAddsNoUser(pre, LastNotice(pre));
    }
    NormalizedAddsNoUser(backend, MessagesForRepair(settings, pre), Some(CacheNamespace(settings, pre)),
                         RepairPolicy(settings));
    var messages := FirstPass(backend, settings, raw).history.messages;
    if LastUser(messages) >= 0 {
      MemberUser(messages, LastUser(messages));
    }
  }

  /** For every request and every store: a user message is enough for the replay contract, and so is a first
      pass that finds everything. */
  lemma RecoverReplaysWhenever(backend: Backend, settings: Settings, raw: seq<Message>)
    requires settings.thinking && settings.strategy == Recover
    requires HasUser(raw) || FirstPass(backend, settings, raw).history.missing == []
    ensures Replayed(PrepareRequest(backend, settings, raw).outgoing)
  {
    hide NoticeText, RecoverySystem, Replayed, HasUser, FirstPass;
    ContractIffNothingMissing(backend, settings, raw);
    if HasUser(raw) {
      RecoverReplaysEverything(backend, settings, raw);
    }
  }

  /** Exactly when recovery mode keeps the replay contract, for requests that it cuts at no notice: the request
      has a user message, or the first pass finds everything. */
  lemma RecoverReplaysIff(backend: Backend, settings: Settings, raw: seq<Message>)
    requires settings.thinking && settings.strategy == Recover
    requires FoundBeforeNotices(backend, StartOf(settings, raw), Some(SessionNamespace(settings, raw)))
    ensures Replayed(PrepareRequest(backend, settings, raw).outgoing)
       <==> HasUser(raw) || FirstPass(backend, settings, raw).history.missing == []
  {
    hide NoticeText, RecoverySystem, Replayed, HasUser, FoundBeforeNotices, FirstPass, NoticeAfterMissing;
    if HasUser(raw) || FirstPass(backend, settings, raw).history.missing == [] {
      RecoverReplaysWhenever(backend, settings, raw);
    } else {
      ContractIffNothingMissing(backend, settings, raw);
      LoopRunsAtMostOnce(backend, settings, raw);
      FirstPassAddsNoUser(backend, settings, raw);
    }
  }

  lemma FirstPassKeepsUser(backend: Backend, settings: Settings, raw: seq<Message>)
    requires HasUser(raw)
    ensures LastUser(FirstPass(backend, settings, raw).history.messages) >= 0
  {
    hide NoticeText, RecoverySystem, HasUser, CutAt;
    var pre := PreRepair(settings, raw);
    NormalizedKeepsUser(NoStore, raw, None, Policy(false, settings.thinking));
    if MessagesForRepair(settings, pre) != pre {
      CutKeepsUser(pre, LastNotice(pre));
    } else {
      MemberUser(pre, LastUser(pre));
    }
    NormalizedKeepsUser(backend, MessagesForRepair(settings, pre), Some(CacheNamespace(settings, pre)),
                        RepairPolicy(settings));
  }

  /** Exactly when such a request is recovered visibly, with a notice to the client: it has a user message and
      the first pass misses something. */
  lemma NoticeIff(backend: Backend, settings: Settings, raw: seq<Message>)
    requires settings.thinking && settings.strategy == Recover
    requires FoundBeforeNotices(backend, StartOf(settings, raw), Some(SessionNamespace(settings, raw)))
    ensures PrepareRequest(backend, settings, raw).notice != ""
       <==> HasUser(raw) && FirstPass(backend, settings, raw).history.missing != []
  {
    hide RecoverySystem, HasUser, FoundBeforeNotices, NormalizeAll, NoticeAfterMissing;
    NoticeTextShape();
    hide NoticeText;
    LoopRunsAtMostOnce(backend, settings, raw);
    var first := FirstPass(backend, settings, raw).history;
    if HasUser(raw) {
      FirstPassKeepsUser(backend, settings, raw);
      if first.missing != [] {
        RecoveryProgress(first.messages, first.missing);
      }
    } else {
      FirstPassAddsNoUser(backend, settings, raw);
    }
  }
}
