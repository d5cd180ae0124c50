# dsproxy reasoning repair, verified

dsproxy stands between an OpenAI-compatible client and a reasoning model. The model insists that every
assistant turn with tool calls comes back with the `reasoning_content` it was produced with; clients
drop that field. The proxy records the reasoning of every response in a cache, finds it again when the
turn comes back, and cuts the history down when it cannot be found. This project models that engine and
proves that its parts agree with each other:

- **Histories** (`Thinking`, `NormalForm`, `Normalize`, `Recovery`, `Prepare`, `Upstream`, `Answers`): the
  left-to-right normaliser with its thinking-block scanner, repair from the cache, the cut at a recovery notice
  or at the last user message, the recovery loop, and what is sent in the end.
- **Cache** (`Keys`, `KeyContents`, `ReasoningStore`, `Retention`, `Recording`, `Isolation`): key families, the
  pruned table, lookup, backfill, and who sees what.
- **Streams** (`Chunks`, `Accumulator`, `StreamRuns`, `StageHistory`, `Display`, `Sse`): the delta
  accumulator, its two recording stages, the thinking-block display adapter, the line rewriter and the
  relay loop.
- **Canonical JSON** (`JsonCanonical`, `JsonText`, `JsonDecoder`, `KeyText`, `KeyFormat`): the encoder behind every
  key, and the digested texts.

Where the program changes state the model does: `ReasoningStore.Store`, `Accumulator.StreamAccumulator`,
`Display.DisplayAdapter` and `JsonCanonical.Buffer` are classes, and the loops are loops. Each such method
is proved equal to a function of its inputs and old state, and the theorems are about those functions.

The main theorems, by question:

- *Is every turn replayed?* `Session.EveryTurnIsReplayed` (whole conversations),
  `DisplayedSession.EveryDisplayedTurnIsReplayed` (the same with streaming and display on),
  `InterleavedSession.EveryInterleavedTurnIsReplayed` (the same in every schedule of locked steps),
  `ReplayContract.RecoverReplaysEverything` and `ContractIffNothingMissing` (any request, any store),
  `Answers.RecoverReplaysIffAnswered` (told from the request and the table),
  `RecoveredTurn.RecoveredTurnIsFound`, `RecoveredTurnIsExact` and `RecoveredTurnIsExactByTurn` (the turn
  after a recovery).
- *Does the loop end, and what does it lose?* `Recovery.RecoveryProgress`, `RecoveryConserves`,
  `OneShot.NoticeBranchIff`, `OneShot.LoopRunsAtMostOnce`, `RecoveredTurn.TailIsCutIff`.
- *What goes upstream?* `Upstream.OutgoingDescends` (every message of every request, told from the message the
  client sent, and what is counted as dropped), `Upstream.EveryMessageIsSent`, `Report.PatchedIsReported`.
- *Is the cache its own history?* `CacheHistory.CacheAgreesWithHistory`, `Retention.RowIsKeptIff`,
  `KeyStability.ScopeIsStable`, `KeyText.KeyTextsAreFaithful`.
- *Who finds what?* `Isolation.NamespaceIff`, `Isolation.OthersDoNotShow` (noninterference between clients),
  `Isolation.FoundWasStoredByClient`, `KeyContents.EchoFindsOwn`.
- *Does streaming change anything?* `AccumulatorFold.InterleavingIsIrrelevant`, `EarlyStore.StoredWhenDue`,
  `StreamRecording.StreamedLookupAgrees`, `StageHistory.EachStageIsStoredOnce`,
  `OwnWrites.OwnKeysAreExact`, `DisplayBlocks.BlocksAreBalancedAndConserveText`,
  `DisplayFold.StreamedDisplayIsFold`, `SseNotice.NoticeIsDeliveredOnce`, `SseNotice.RelayedTurnIsRecorded`,
  `RelayFrames.OnlyContentIsRewritten`.
- *Are texts read back?* `Thinking.PrintStripRoundTrip`, `ThinkingTags.BlockIsRemoved`,
  `JsonDecoder.DecodeUndoesEncode`.

Three claims that one would like to make are false of the code, and the project says exactly when they hold:

- Stripping thinking blocks is not idempotent (`Thinking.StripIsNotIdempotent`): removing an inner block can
  form a new opening tag. A second strip changes nothing exactly when the first leaves no block behind
  (`Thinking.StripIsIdempotentIff`); on the raw content it is enough that no block follows a `<` that the
  scanner keeps (`Thinking.StripIsIdempotentOn`).
- Recovery after the boundary pre-pass does not always avoid cutting at a notice, because of such contents:
  `LateNotice.OneShotFails` gives the request. No iteration of the loop cuts at a notice exactly when the first
  pass finds everything in front of the messages that show one (`OneShot.NoticeBranchIff`, and
  `Answers.NoticeBranchIffAnswered` in terms of the table); contents that hide no late notice are enough
  (`OneShot.NoLateNoticesAreEnough`). Then the loop body runs at most once.
- Recovery mode does not always meet the replay contract: a request without a user message is forwarded with
  its gap (`ReplayContract.NoUserLeavesAGap`). A user message, or a first pass that finds everything, is enough
  for every request (`OneShot.RecoverReplaysWhenever`); for requests that are cut at no notice one of the two is
  also necessary (`OneShot.RecoverReplaysIff`, `Answers.RecoverReplaysIffAnswered`).

Where documentation and code differ the model follows the code: README.md:326 promises to keep the current
conversation tail, but recovery without an earlier notice keeps only the last user message
(internal/transform/transform.go:332-346). `RecoveredTurn.TailIsCutIff` says when: as soon as the first pass
misses anything, and `OneShot.NoticeIff` says that this is also when the client is told.

Conventions: times are integers in nanoseconds and the clock is a function of the number of readings; the JSON
decoder of the relay is a parameter; a key is the structure that the program digests, and `KeyText` relates
structures to texts; a request prepared by concurrent handlers is, in `Provenance`, a sequence of single locked
steps. Strings are sequences of Unicode characters.

## Model

| member | source | states |
|---|---|---|
| `Thinking.StripPrintedBlock` | internal/transform/transform.go:130-132 | a printed block, in either style and with any reasoning free of its closing tag, is removed together with the white space behind it; the rest is stripped as if it stood alone |
| `Thinking.PrintStripRoundTrip` | internal/transform/transform.go:130-132 | printing a block in front of content without blocks and stripping gives the content back, leading white space removed |
| `Thinking.UnclosedBlockIsRemoved` | internal/transform/transform.go:46 | a block at the end of a text that is never closed is removed entirely, and the text in front of it stays |
| `Thinking.StripKeepsPrefix` | internal/transform/transform.go:130-132 | text before the first `<` survives stripping unchanged |
| `Thinking.StripIsNotIdempotent` | internal/transform/transform.go:130-132 | a family of contents on which the second strip removes more than the first, and exactly what each leaves |
| `Thinking.StripIsIdempotentIff` | internal/transform/transform.go:130-132 | a second strip changes nothing exactly when the first leaves no block behind |
| `Thinking.StripIsIdempotentOn` | internal/transform/transform.go:130-132 | a condition on the raw content, no block after a kept `<`, under which one strip is enough |
| `ThinkingTags.OpenThinkIff` | internal/transform/transform.go:46 | a plain block opens with a `think` or `thinking` tag in any case and with any attributes, a word boundary behind the name, up to the first `>`, and with nothing else |
| `ThinkingTags.OpenDetailsIff` | internal/transform/transform.go:46 | a collapsible block opens with exactly a `details` tag, a `summary` tag, the title and `</summary>`, white space between them |
| `ThinkingTags.BlockIsRemoved` | internal/transform/transform.go:46 | a block of either style goes with the white space behind it; its body ends at the first closing tag, and the two plain names may be mixed |
| `ThinkingTags.OpenBlockIsRemoved` | internal/transform/transform.go:46 | a block of either style that is never closed runs to the end of the text |
| `ThinkingTags.OtherTextStays` | internal/transform/transform.go:46 | where no opening tag stands, the character stays and the scan goes on behind it |
| `Keys.FindLastUser` | internal/reasoning/keys.go:132-139 | the backward search finds the last user message, or -1 |
| `Keys.TurnContextSignature` | internal/reasoning/keys.go:132-155 | the loops compute the turn: the last run of user messages and what follows, without system messages |
| `Keys.TurnIgnoresEarlierHistory` | internal/reasoning/keys.go:132-155 | nothing before the current run of user messages enters the turn, so portable keys survive a cut |
| `Keys.TurnIgnoresLaterSystem` | internal/reasoning/keys.go:148-152 | a system message after the last user message does not enter the turn |
| `Keys.CallIdIsKey` | internal/reasoning/keys.go:157-197 | every tool call with an id gives its message a key under the scope and one under the turn |
| `Keys.AliasesOfNormalizedCalls` | internal/reasoning/keys.go:78-96 | normalising a message does not change any of its aliases |
| `Keys.ScopedReasoningKeys` | internal/reasoning/keys.go:157-173 | the key list under a scope: signature, ids, call signatures, names, in that order; KeyContents says what each alias tells |
| `Keys.PortableReasoningKeys` | internal/reasoning/keys.go:175-197 | the key list under namespace and turn, and none without a namespace |
| `KeyContents.SignatureIff` | internal/reasoning/keys.go:78-96 | two messages share a signature exactly when their contents and their normalised calls agree |
| `KeyContents.ScopeIff` | internal/reasoning/keys.go:98-130 | two histories share a scope exactly when they agree message by message, reasoning aside, in one namespace |
| `KeyContents.TurnContents` | internal/reasoning/keys.go:132-155 | the turn holds, in order and canonically, every message from its beginning on that is not a system message; where it begins is told by roles alone |
| `KeyContents.AliasIff` | internal/reasoning/keys.go:41-96 | a message is known by exactly these aliases: content with calls, and the id, signature and name of each call |
| `KeyContents.AliasesAreRanked` | internal/reasoning/keys.go:157-173 | more specific kinds of alias come first |
| `KeyContents.KeysIff` | internal/reasoning/keys.go:157-197 | recording and lookup use exactly the keys of these aliases under the scope and, with a namespace and prior messages, under the turn, the scoped ones first |
| `KeyContents.BackfillsIff` | internal/reasoning/store.go:137-150 | a backfill writes the restored reasoning under exactly the aliases of the message under its turn, prior messages or not |
| `Keys.UniqueKeys` | internal/reasoning/keys.go:215-226 | removing duplicates keeps exactly the keys that were there, each once |
| `Keys.UniqueKeysLoop` | internal/reasoning/keys.go:215-226 | the loop with its seen-set computes that list |
| `ReasoningStore.Store.constructor` | internal/reasoning/store.go:23-60 | a fresh store is an empty table pruned once |
| `ReasoningStore.Store.PruneLocked` | internal/reasoning/store.go:170-198 | pruning drops rows before the cutoff, then keeps the newest rows up to the limit; in nanoseconds, with an age limit alone, rows within it stay and rows a second older go |
| `ReasoningStore.Store.Put` | internal/reasoning/store.go:73-89 | a write upserts one row with its time and prunes |
| `ReasoningStore.Store.Get` | internal/reasoning/store.go:91-103 | a read returns the row's reasoning and changes nothing |
| `ReasoningStore.Store.Clear` | internal/reasoning/store.go:152-162 | clearing removes and counts all rows |
| `ReasoningStore.Store.StoreAssistantMessage` | internal/reasoning/store.go:105-122 | the whole new table and the count: one write per distinct key, only for an assistant message with reasoning |
| `ReasoningStore.Store.LookupForMessage` | internal/reasoning/store.go:124-135 | the first hit over scoped, then portable keys; KeyContents.EchoFindsOwn says whose reasoning that is |
| `ReasoningStore.Store.BackfillPortableAliases` | internal/reasoning/store.go:137-150 | the whole new table and the count: one write per distinct portable key |
| `ReasoningStore.FoundByCallId` | internal/reasoning/store.go:124-135 | one row for any one of a message's tool-call ids, under the scope or the turn, is enough for the lookup to find something |
| `ReasoningStore.FirstHitIsFirst` | internal/reasoning/store.go:124-135 | a hit on an earlier key hides every later one |
| `ReasoningStore.AgeDecides` | internal/reasoning/store.go:170-198 | with an age limit alone a row survives a prune exactly when it is at most the limit old, counted from the beginning of the current second |
| `KeyContents.EchoFindsOwn` | internal/reasoning/store.go:105-135 | after any recordings an echo is answered with its own message's reasoning, unless one with the same content and calls was recorded later under the same scope, and under limits while its row is kept |
| `KeyContents.TwoAnswers` | internal/reasoning/store.go:105-135 | two answers with different contents to one history are each found with their own reasoning |
| `CacheHistory.CacheAgreesWithHistory` | internal/reasoning/store.go:73-198 | after any trace of writes, prunes and clears at increasing times the table is one selection from the unpruned history, with the last written value |
| `CacheHistory.GetAfterTrace` | internal/reasoning/store.go:91-103 | what a read returns after any trace, told from the history |
| `CacheHistory.RowLimitHolds` | internal/reasoning/store.go:170-198 | the row limit holds after every trace |
| `CacheHistory.PruningATopPart` | internal/reasoning/store.go:170-198 | pruning a table that has lost nothing still allowed is selecting from everything ever written |
| `Retention.RowIsKeptIff` | internal/reasoning/store.go:73-198 | after any trace a key is there exactly when it was written, its last write is at most the age limit back in nanoseconds, counted from the beginning of the current second, and fewer rows than the row limit are newer |
| `Retention.AgeBounds` | internal/reasoning/store.go:170-178 | with an age limit alone, after any trace, what was written within the limit is there and what was written a second earlier is not |
| `Retention.NewestAreKept` | internal/reasoning/store.go:180-192 | with a row limit alone, after any trace, a row is lost only when the limit is reached, and every row that is there is newer |
| `Normalize.AssistantNeedsReasoning` | internal/transform/transform.go:201-217 | the backward search decides whether a turn needs reasoning |
| `Normalize.FollowsToolMeaning` | internal/transform/transform.go:201-217 | a turn follows a tool result exactly when some tool message has no user or system message after it |
| `Normalize.FollowsToolOfCanonical` | internal/transform/transform.go:201-217 | needing reasoning depends on the canonical history only |
| `Normalize.PlainIsCanonical` | internal/reasoning/keys.go:98-115 | a normalised message without reasoning is its own canonical form |
| `Normalize.NormalizeMessage` | internal/transform/transform.go:349-430 | one message: every field of the result told from the raw message by role, whose reasoning it has, and the whole new store |
| `Normalize.NormalizeMessages` | internal/transform/transform.go:432-463 | the loop over a history, each message against the already normalised prefix; every message has the form of its role |
| `KeyStability.NormalizedAt` | internal/transform/transform.go:432-463 | message `i` of a normalised history depends on the raw prefix up to `i` alone |
| `KeyStability.CanonicalOfNormalized` | internal/transform/transform.go:349-463 | the canonical form of a normalised history is a function of the raw history: no store, flag or restored reasoning enters |
| `KeyStability.ScopeIsStable` | internal/reasoning/keys.go:98-130 | a longer history normalises to an extension, and every prefix has the same scope under any two stores and policies |
| `KeyStability.TurnOfCanonical` | internal/reasoning/keys.go:132-155 | the turn is a function of the canonical history too |
| `KeyStability.KeysOfCanonicalPrior` | internal/reasoning/keys.go:157-197 | two priors that agree canonically give a message the same keys in the same order |
| `KeyStability.AliasesOfEcho` | internal/reasoning/keys.go:78-96 | a response and its echo have the same aliases when stripping gives the recorded content back |
| `Recovery.LeadingSystemMessages` | internal/transform/transform.go:243-253 | the loop returns the longest prefix of system messages |
| `Recovery.ActiveMessagesFromRecoveryBoundary` | internal/transform/transform.go:255-291 | the backward searches and appends compute the cut at the last notice, its context user and the retired count |
| `Recovery.RecoverMessagesFromMissingReasoning` | internal/transform/transform.go:293-347 | the cut at the last notice with a missing turn before it, else at the last user message, else nothing, with the count and the notice |
| `Recovery.BoundaryConserves` | internal/transform/transform.go:255-291 | output length plus retired count is input length plus one, the count is never clamped, leading system messages stay, and the rest is a subsequence |
| `Recovery.RecoveryConserves` | internal/transform/transform.go:293-347 | the same conservation law for every recovery step that rewrites |
| `Recovery.CutAssistants` | internal/transform/transform.go:293-330 | a cut keeps exactly the assistant messages from the cut on |
| `Recovery.RecoveryProgress` | internal/transform/transform.go:293-347 | with a missing turn, a step drops something and strictly reduces the assistant messages, or there is no user message and nothing changes |
| `Prepare.ResponseRecordingContexts` | internal/transform/transform.go:637-651 | the loop keeps the first context of every scope |
| `Prepare.EveryScopeIsKept` | internal/transform/transform.go:637-651 | no scope is lost |
| `Prepare.ContextPair` | internal/transform/transform.go:765-769 | record and active context are merged exactly when their scopes agree |
| `Prepare.NormalizedIsSound` | internal/transform/transform.go:432-463 | only assistant messages are reported missing, and roles survive, so the number of assistant messages does |
| `Prepare.LoopProgress` | internal/transform/transform.go:752-763 | every iteration that goes on leaves fewer assistant messages: the loop ends for every history and store |
| `Prepare.StripRecoveryNoticeForUpstream` | internal/transform/transform.go:224-241 | the loop removes the notice and the line breaks behind it from every assistant message that begins with it |
| `Prepare.PrepareUpstreamRequest` | internal/transform/transform.go:732-786 | the whole preparation, loop included: outgoing history, namespace, counts, notice, contexts and the new store; Upstream, Report and Isolation say what these are |
| `Upstream.OutgoingDescends` | internal/transform/transform.go:732-786 | for every request, store and strategy each outgoing message is the recovery instruction or the normal form of one of the client's, in order, notice removed, and the client's messages that are not sent are those counted as dropped or retired |
| `Upstream.EveryMessageIsSent` | internal/transform/transform.go:732-786 | a request that shows no notice and from which nothing is dropped is sent message for message in normal form |
| `Upstream.OnlyRecoveryDrops` | internal/transform/transform.go:742-763 | without thinking, and in strict mode, nothing is dropped |
| `Upstream.NormalAgain` | internal/transform/transform.go:349-430 | another pass over a normal message strips an assistant text once more and changes nothing else |
| `Upstream.NoticeIsRemoved` | internal/transform/transform.go:224-241 | notice, line breaks and a text that begins with none leave exactly that text, and other messages stay |
| `Upstream.PrefixedIsStripped` | internal/transform/transform.go:224-241 | the notice put in front of an answer is taken off again on its way upstream: a text that begins with no line break comes back |
| `Report.PatchedIsReported` | internal/transform/transform.go:742-778 | when nothing is cut the patched count is the number of assistant messages that came without reasoning and go out with some |
| `Report.RecoveredIsReported` | internal/transform/transform.go:752-763 | a request that is cut at no notice reports the turns its first pass missed as recovered, with the exact dropped count and the one notice |
| `Isolation.NamespaceIff` | internal/transform/transform.go:597-635 | two requests have one namespace exactly when URL, model, thinking mode, effort in effect, credentials, user, tools, tool choice in effect and system messages agree |
| `Isolation.PreparedAlike` | internal/transform/transform.go:732-786 | without limits what is prepared depends on the cached rows of the request's own namespace alone |
| `Isolation.OthersDoNotShow` | internal/transform/transform.go:732-824 | without limits, after any whole exchange of a client that differs in one of these, a request is prepared exactly as if it had not happened |
| `ReplayContract.NormalizedMissingIsExact` | internal/transform/transform.go:397-463 | the missing list holds exactly the turns that need reasoning and have none |
| `ReplayContract.NoticeRemovalKeepsContract` | internal/transform/transform.go:224-241 | removing the notice neither makes nor breaks the contract |
| `ReplayContract.ContractIffNothingMissing` | internal/transform/transform.go:748-786 | for every request, store and strategy every outgoing turn that needs reasoning carries it exactly when the reported missing count is zero |
| `ReplayContract.RecoverReplaysEverything` | internal/transform/transform.go:748-770 | in recovery mode one user message is enough for the contract, whatever the store holds |
| `ReplayContract.NoUserLeavesAGap` | internal/transform/transform.go:332-340 | a request without a user message that is forwarded with a gap |
| `ReplayContract.StrictForwardsIffReplayed` | internal/proxy/handler.go:159-176 | strict mode answers 409 exactly for the requests that miss the contract |
| `Answers.FirstPassFindsIff` | internal/transform/transform.go:397-463 | without limits the first pass misses nothing exactly when every turn that asks has a key in the table, or one that an earlier answered turn adds |
| `Answers.NoticeBranchIffAnswered` | internal/transform/transform.go:752-763 | without limits no iteration of the recovery loop cuts at a notice exactly when every turn that asks before a message with a notice is answered by the table |
| `Answers.RecoverReplaysIffAnswered` | internal/transform/transform.go:742-770 | under that condition, and without limits, the contract holds exactly when the request has a user message or the table answers every turn that asks |
| `Answers.StrictForwardsIffAnswered` | internal/proxy/handler.go:159-176 | without limits strict mode forwards exactly the requests whose asking turns the table answers |
| `OneShot.IdempotentStripHasNoLateNotice` | internal/transform/transform.go:219-222 | contents on which stripping is idempotent satisfy the hypothesis of the one-shot theorem |
| `OneShot.LateNoticeExists` | internal/transform/transform.go:130-222 | a content whose notice only the second strip uncovers |
| `LateNotice.OneShotFails` | internal/transform/transform.go:293-330 | a request with a user message, over an empty table, on which recovery does cut at a notice after the pre-pass |
| `OneShot.BoundaryLeavesNothingToCut` | internal/transform/transform.go:742-748 | after the boundary pre-pass no assistant message precedes the kept notice and no notice follows it |
| `OneShot.NoCutIff` | internal/transform/transform.go:293-330 | recovery from a pass cuts at no notice exactly when the pass finds everything in front of the messages that show one |
| `OneShot.NoticeBranchIff` | internal/transform/transform.go:742-763 | for every request and store some iteration of the loop cuts at a notice exactly when the first pass misses something in front of one |
| `OneShot.NoLateNoticesAreEnough` | internal/transform/transform.go:742-763 | contents that hide no late notice rule such a cut out, whatever the store holds |
| `OneShot.LoopRunsAtMostOnce` | internal/transform/transform.go:742-763 | when the first pass finds everything in front of the notices the loop body runs at most once and cuts at no notice |
| `OneShot.RecoverReplaysWhenever` | internal/transform/transform.go:742-770 | for every request in recovery mode a user message is enough for the contract, and so is a first pass that finds everything |
| `OneShot.RecoverReplaysIff` | internal/transform/transform.go:742-770 | for requests that are cut at no notice the contract holds exactly when the request has a user message or the first pass finds everything |
| `OneShot.NoticeIff` | internal/transform/transform.go:332-346 | such a request is answered with a notice exactly when it has a user message and the first pass misses something |
| `Recording.RecordResponseReasoning` | internal/transform/transform.go:788-824 | one batch of writes per choice and recording context, in order |
| `Recording.PrefixResponseContent` | internal/transform/transform.go:854-870 | the loop puts the notice in front of the first choice's content and touches nothing else |
| `Recording.RowIsLastWrite` | internal/reasoning/store.go:73-103 | under any limits a row that is there after a batch of writes holds the last reasoning written to its key, or is untouched; without limits it is there |
| `Recording.PutsKeepOthers` | internal/reasoning/store.go:73-89 | a batch of writes leaves every other row alone unless it is evicted |
| `Recording.PutsAreFound` | internal/reasoning/store.go:73-103 | every written key holds the batch's reasoning unless it is evicted |
| `Session.PassOverPrefix` | internal/transform/transform.go:397-463 | invariant of a repairing pass over a covered history: nothing missing, and each turn that needs it has its own reasoning |
| `Session.CoveredRequest` | internal/transform/transform.go:732-786 | a covered request goes out complete and exact, the recovery loop does not run, and there is one recording context |
| `Session.PositionKeyIsStable` | internal/reasoning/keys.go:117-130 | the key of a position does not depend on what is appended later |
| `Session.RecordedTurnIsCovered` | internal/transform/transform.go:732-824 | recording the response covers the history that the client sends next |
| `Session.SparedWithoutLimits` | internal/reasoning/store.go:170-198 | without limits a repairing pass evicts no row of the conversation |
| `Session.EveryTurnIsReplayed` | internal/transform/transform.go:732-824 | whole conversations: at every request every turn that needs reasoning is replayed with exactly the recorded one, and recovery never happens; over a shared store, without limits or as long as no row of the conversation is evicted, with echoes bare or with printed blocks |
| `DisplayedSession.DisplayIsStripped` | internal/transform/transform.go:130-132 | the echo of a streamed, displayed response is stripped back to the recorded content |
| `DisplayedSession.StreamedTurnIsCovered` | internal/stream/accumulator.go:152-183 | recording a streamed response in stages covers the history that the client sends next |
| `DisplayedSession.EveryDisplayedTurnIsReplayed` | internal/proxy/handler.go:268-328 | whole conversations with streaming and display on: every turn that needs reasoning is replayed with exactly the streamed reasoning, and recovery never happens; without limits or as long as no row of the conversation is evicted |
| `InterleavedSession.ScheduledIsRun` | internal/reasoning/store.go:73-150 | a schedule is a run of the step model, so namespace isolation holds in it too |
| `InterleavedSession.RecordedIsFound` | internal/reasoning/store.go:73-135 | a recorded row that is not lost answers every later lookup that tries its key first, whoever steps in between |
| `InterleavedSession.SequentialIsTold` | internal/transform/transform.go:397-430 | what the normaliser makes of a message depends on the store only through the answer of its lookup |
| `InterleavedSession.KeptWithoutLimits` | internal/reasoning/store.go:170-198 | without limits no step but a clearing loses a row |
| `InterleavedSession.EveryInterleavedTurnIsReplayed` | internal/reasoning/store.go:73-150 | whole conversations in every schedule of the locked steps of any number of requests: nothing is missing, and every turn that needs reasoning gets exactly what was recorded for it |
| `RecoveredTurn.RecoveredContext` | internal/transform/transform.go:765-769 | a recovered request is answered under a context whose turn is the old question, however many recovery instructions were inserted |
| `RecoveredTurn.RecoveredTurnIsFound` | internal/transform/transform.go:255-346 | the turn answered after a recovery is not missing in the next request while its rows are kept: at the latest the portable tool-call key finds it |
| `RecoveredTurn.EchoIsUnderActiveScope` | internal/transform/transform.go:255-346 | after a recovery without an earlier notice the next request looks the turn up under the scope it was recorded under |
| `RecoveredTurn.RecoveredTurnIsExact` | internal/transform/transform.go:255-346 | and patches it with exactly its own reasoning |
| `RecoveredTurn.RecoveredTurnIsExactByTurn` | internal/transform/transform.go:255-346 | however often the history was cut before, the turn is patched with exactly its own reasoning, through the portable signature if not earlier, as long as no scoped row of the echo holds another reasoning |
| `RecoveredTurn.TailIsCutIff` | internal/transform/transform.go:332-346 | for a request with a user message that is cut at no notice: the history is kept when the first pass finds everything, and otherwise only system messages and the question are left |
| `RecoveredTurn.NoticeSurvivesEcho` | internal/transform/transform.go:219-222 | the notice is still at the start of the content after the client's echo, behind a printed block or not |
| `RecoveredTurn.RecordingLeavesExactRows` | internal/transform/transform.go:788-824 | the rows that recording the response leaves are exact as far as they are not evicted, and without limits all are there |
| `Provenance.StepKeepsInvariant` | internal/reasoning/store.go:73-150 | every locked step of every request keeps: each row, and each pending write, comes from a message stored in its namespace |
| `Provenance.FoundWasStoredInNamespace` | internal/reasoning/store.go:105-150 | in every interleaving of any number of requests a lookup finds only reasoning that was stored in the same namespace |
| `Isolation.FoundWasStoredByClient` | internal/reasoning/store.go:105-150 | in every interleaving what a request finds was stored by a request with the same credentials, user, model, URL, tools and system messages |
| `Provenance.StoreIsRun` | internal/reasoning/store.go:105-122 | recording a message, undisturbed, is a run of these steps and ends in the table that its contract gives |
| `Provenance.LookupIsRun` | internal/reasoning/store.go:124-135 | a lookup, undisturbed, is a run of these steps, finds what its contract says and writes nothing |
| `Provenance.BackfillIsRun` | internal/reasoning/store.go:137-150 | a backfill, undisturbed, is a run of these steps and ends in the table that its contract gives |
| `Accumulator.StreamAccumulator.IngestChunk` | internal/stream/accumulator.go:30-61 | the loop over entries folds each delta into its choice |
| `Accumulator.StreamAccumulator.MergeToolCallDelta` | internal/stream/accumulator.go:72-123 | slots grow to the index, id and type are replaced, null included, name and arguments are appended |
| `Accumulator.StreamAccumulator.StoreChoiceAt` | internal/stream/accumulator.go:172-183 | a store decision writes the message's keys and raises the stage, or does nothing |
| `Accumulator.StreamAccumulator.StoreReasoning` | internal/stream/accumulator.go:152-170 | one pass over the choices in some order: final when finished or at the end, tool-call stage when every call has its id |
| `EarlyStore.StoredWhenDue` | internal/stream/accumulator.go:152-195 | told from what has arrived of a choice: one visit writes all keys of its message when it is finished, or reasoning and an id for every call are there, and this stage was not stored before; and otherwise nothing |
| `EarlyStore.IdentifiedCallsAreStored` | internal/stream/accumulator.go:160-195 | before the finish, reasoning and an id for every call make a pass write every key with all the reasoning so far |
| `EarlyStore.UnidentifiedCallsAreNot` | internal/stream/accumulator.go:160-195 | as long as reasoning, the calls or one id is missing, a pass does what it would do without the choice |
| `EarlyStore.AssembledMessage` | internal/stream/accumulator.go:125-137 | the message of a choice, field by field, told from its entries |
| `AccumulatorFold.ChoiceIsOwnFold` | internal/stream/accumulator.go:30-70 | what is accumulated for a choice is the fold of that choice's own entries |
| `AccumulatorFold.InterleavingIsIrrelevant` | internal/stream/accumulator.go:30-70 | reordering entries of different choices changes nothing |
| `AccumulatorFold.FoldConcatenates` | internal/stream/accumulator.go:45-56 | content and reasoning are the in-order concatenation of the fragments, reasoning is present once any fragment is, and role and finish reason are the last ones given |
| `AccumulatorFold.SlotCountIsMax` | internal/stream/accumulator.go:72-96 | the number of slots is one more than the highest index used |
| `AccumulatorFold.SlotsAreOwnFolds` | internal/stream/accumulator.go:72-123 | each slot's name and arguments are the concatenation of its own fragments, and its id and type are the last ones given |
| `AccumulatorFold.AccumulatedChoice` | internal/stream/accumulator.go:30-137 | all of this, the presence of reasoning included, for every choice of every interleaved stream |
| `StreamRecording.FinalRounds` | internal/stream/accumulator.go:160-183 | the round at the finish writes exactly what recording the complete message writes, under every context |
| `StreamRecording.StreamEndsWithMessage` | internal/stream/accumulator.go:152-183 | the writes of a stream are early ones followed by exactly the writes of recording the message at once, or none |
| `StreamRecording.BatchDecides` | internal/reasoning/store.go:170-198 | which keys of the last batch survive pruning depends on the batch alone |
| `StreamRecording.StreamedLookupAgrees` | internal/stream/accumulator.go:152-183 | looking the complete message up after the stream answers as after recording it in one piece, however it was cut and under any limits |
| `StageHistory.StagesOnlyAdvance` | internal/stream/accumulator.go:172-183 | one decision that stores raises the stage of its choice and scope and touches no other |
| `StageHistory.SuccessesAdvance` | internal/stream/accumulator.go:172-183 | in every sequence of decisions two that store for one choice and scope are the tool-call stage and then the final stage |
| `StageHistory.DecisionsMakeTheWrites` | internal/stream/accumulator.go:152-183 | the decisions of a stream make exactly its writes, for any number of choices and any visiting orders |
| `StageHistory.EachStageIsStoredOnce` | internal/stream/accumulator.go:152-183 | over a whole stream each choice and scope has at most one successful tool-call store and at most one successful final store, in this order |
| `OwnWrites.OwnWritesOfStream` | internal/stream/accumulator.go:152-183 | among several choices, visited in any order, each choice's writes are those of a stream in which only it is visited |
| `OwnWrites.OwnKeysAreExact` | internal/stream/accumulator.go:152-183 | after a stream of several choices every key of a complete message that no other choice writes holds that choice's complete reasoning unless it is evicted |
| `Display.DisplayAdapter.RewriteChunk` | internal/stream/display.go:39-85 | the in-place rewriting of a chunk's entries and the new open set |
| `Display.DisplayAdapter.FlushChunk` | internal/stream/display.go:87-116 | one closing entry per open choice in ascending order, and nothing stays open |
| `DisplayBlocks.ChoicesAreRewrittenAlone` | internal/stream/display.go:39-85 | each choice is rewritten as if it were alone in the stream |
| `DisplayBlocks.RewriteAllConcat` | internal/stream/display.go:39-85 | rewriting chunk by chunk is rewriting the whole stream |
| `DisplayBlocks.FlushOfChoice` | internal/stream/display.go:87-116 | the flush closes each open choice once and no other |
| `DisplayBlocks.BlocksAreBalancedAndConserveText` | internal/stream/display.go:39-116 | every choice's content alternates start and end markers and ends closed; without blocks it is the original content; the blocks hold all the reasoning; the open set is exact |
| `DisplayFold.FoldReasoningIntoContent` | internal/transform/transform.go:872-892 | the in-place loop prints each choice's reasoning in front of its content |
| `DisplayFold.StreamedDisplayIsFold` | internal/stream/display.go:39-116 | when reasoning comes first, streaming display shows what the fold gives for the assembled message, for every way of cutting it |
| `DisplayFold.EchoOfDisplayHasRecordedKeys` | internal/transform/transform.go:872-906 | an echo of what was displayed has all the aliases of the recorded message |
| `Sse.FieldIsFound` | internal/proxy/sse.go:35-63 | a line is classified by the text of its `data:` field, whatever white space and line ends stand before, inside or after it |
| `RelayFrames.NoFieldIsPassedOn` | internal/proxy/sse.go:35-38 | a line whose text does not begin with `data:`, white space around it aside, is passed on |
| `RelayFrames.WhiteIff` | internal/proxy/sse.go:35-39 | the white space that is trimmed, by code point |
| `Sse.InjectRecoveryNotice` | internal/transform/transform.go:933-952 | the notice goes in front of the content of the first delta with a content field or tool calls, and into no other |
| `RelayFrames.NoticeGoesToFirstRoom` | internal/transform/transform.go:933-952 | the first entry whose delta has a content field, even a null one, or tool calls gets the notice in front of its text, and nothing else changes |
| `RelayFrames.NoticeWaitsForRoom` | internal/transform/transform.go:933-952 | without such an entry nothing changes and the notice stays pending |
| `Sse.RewriteSSELine` | internal/proxy/sse.go:24-92 | one line: frames, pending notice, open blocks, accumulated message, stages and store |
| `Sse.StoreUnderContexts` | internal/proxy/sse.go:40-71 | one recording pass per context, in order |
| `Sse.ProxyStreaming` | internal/proxy/handler.go:268-328 | the loop writes the frames of the run and stores the staged recording of what was fed, for any number of choices in the reported visiting orders, end marker or not |
| `StreamRuns.OneChoiceOps` | internal/stream/accumulator.go:152-183 | with one choice the visiting orders do not matter to what a stream stores |
| `Sse.NothingAfterTheFinish` | internal/proxy/handler.go:302-309 | nothing is read after the end marker |
| `RelayFrames.OneFramePerLine` | internal/proxy/sse.go:24-92 | over a whole run every line has one frame with its own ending and the client's model name, up to the end marker, which comes last and once |
| `RelayFrames.OnlyContentIsRewritten` | internal/stream/display.go:39-116 | over a whole run the client gets every entry with its index, finish reason, role, reasoning and tool calls, and behind them only content |
| `RelayFrames.OpenIff` | internal/stream/display.go:39-85 | after any entries a choice is held open exactly when its reasoning was the last thing to come: no string content, tool-call list or finish reason with or after it |
| `StreamRuns.OneOrder` | internal/stream/accumulator.go:152-170 | with one choice the visiting order cannot matter |
| `SseNotice.RunRelaysDecoded` | internal/proxy/handler.go:281-320 | a whole run told from the decoded input: what was fed, what the client got, what is pending |
| `SseNotice.NoticeOnlyPrefixesContent` | internal/transform/transform.go:933-952 | injection changes one thing in what is accumulated: the notice stands in front of one choice's whole content |
| `SseNotice.AccumulatedUnderNotice` | internal/proxy/sse.go:64-68 | every choice is accumulated as it was sent, notice in front on the carrying choice; if none carries it no choice has content or tool calls |
| `SseNotice.NoticeIsDeliveredOnce` | internal/proxy/sse.go:24-92 | display off: the client gets what was sent plus the notice in front of one choice, never twice, and always when the end marker is reached |
| `SseNotice.DisplayedNotice` | internal/proxy/sse.go:24-92 | display on, end marker or not: the same for the text outside the blocks, which hold all the reasoning and are balanced except that a stream cut off inside a block leaves it open |
| `SseNotice.OtherLinesPassThrough` | internal/proxy/sse.go:34-63 | lines without a `data:` field and undecodable data lines reach the client unchanged and in order |
| `SseNotice.RelayedTurnIsRecorded` | internal/proxy/handler.go:281-320 | from response lines to cache: the message with its notice is looked up as if it had been recorded in one piece |
| `SseNotice.RelayedKeysAreExact` | internal/proxy/handler.go:281-320 | the same for several choices: every key that only one choice writes holds that choice's reasoning unless it is evicted |
| `JsonCanonical.OneSortedListing` | internal/jsoncanon/canonical.go:58-62 | a set of keys has one sorted listing, so iteration order cannot show |
| `JsonText.LessIff` | internal/jsoncanon/canonical.go:58-62 | keys are ordered by the first character in which they differ, a prefix first |
| `JsonText.EscapeForm` | internal/jsoncanon/canonical.go:41-46 | each character is written in its short form, as a four-digit code, or as itself |
| `JsonText.EscapedIsSafe` | internal/jsoncanon/canonical.go:41-46 | no control character, bracket, ampersand or line separator is left in an escaped text |
| `JsonCanonical.WriteValue` | internal/jsoncanon/canonical.go:20-89 | the recursive writer appends exactly the encoding of the value to the buffer |
| `JsonCanonical.WriteQuoted` | internal/jsoncanon/canonical.go:41-46 | a string is appended quoted and escaped character by character |
| `JsonCanonical.Marshal` | internal/jsoncanon/canonical.go:12-18 | the text is the encoding |
| `JsonDecoder.TextReadsBack` | internal/jsoncanon/canonical.go:41-46 | every string is read back from its escaped form |
| `JsonDecoder.ValueReadsBack` | internal/jsoncanon/canonical.go:20-89 | decoding an encoding gives the value back and leaves exactly what follows it |
| `JsonDecoder.DecodeUndoesEncode` | internal/jsoncanon/canonical.go:12-89 | the decoder undoes the encoder with nothing left over |
| `JsonDecoder.EncodingIsUnambiguous` | internal/jsoncanon/canonical.go:12-89 | two values have one text exactly when they are equal, key order aside |
| `KeyText.KeyTextsAreFaithful` | internal/reasoning/keys.go:117-206 | two keys have one text exactly when they are equal, unless the digest collides on something they digest |
| `KeyText.NamespaceIsDetermined` | internal/transform/transform.go:597-635 | a namespace text determines URL, model, thinking mode, effort, credentials, user and runtime context |
| `KeyText.ScopeIsDetermined` | internal/reasoning/keys.go:117-130 | a scope text determines the namespace and the canonical messages |
| `KeyText.AliasIsDetermined` | internal/reasoning/keys.go:157-197 | the tails of different aliases are different |
| `KeyText.NamespaceIsProper` | internal/transform/transform.go:597-635 | and so does the namespace of every request whose tools are decoded JSON |
| `KeyText.MessageKeysAreProper` | internal/reasoning/keys.go:157-197 | the keys in use satisfy the hypotheses of the faithfulness theorem |
| `KeyFormat.WrittenInOrder` | internal/jsoncanon/canonical.go:57-77 | the text of an object is its present members in the order of their names, whatever order they were put in |
| `KeyFormat.CallFormat` | internal/reasoning/keys.go:11-39 | the text of a call, member by member |
| `KeyFormat.SignatureFormat` | internal/reasoning/keys.go:78-96 | what a signature digests, member by member |
| `KeyFormat.MessageFormat` | internal/reasoning/keys.go:98-115 | the text of a message in a scope or a turn, member by member, absent fields left out |
| `KeyFormat.RoleIff` | internal/reasoning/keys.go:98-115 | every role is written under its own word |
| `KeyFormat.ScopeFormat` | internal/reasoning/keys.go:117-130 | what a scope digests, with and without a namespace |
| `KeyFormat.SystemFormat` | internal/transform/transform.go:597-609 | a system message in the runtime context, with a content member even when it is null |
| `KeyFormat.ContextFormat` | internal/transform/transform.go:597-616 | what the runtime context digests |
| `KeyFormat.NamespaceFormat` | internal/transform/transform.go:618-635 | what a namespace digests, with the digests of credentials and runtime context in it |

## Left out

- SQLite, file permissions, directory creation and swallowed SQL errors: the table is a map and its operations succeed; a store opened on an existing file is not modelled.
- The `message_json` column and `MessageJSON`: written, never read.
- Write times as floating-point seconds: the model keeps exact nanoseconds, so rounding ties between two writes are not captured.
- SHA-256, HMAC and `deriveUserID`: the user id is a namespace component, and digests are handled by hypothesis in `KeyText`.
- HTTP plumbing, headers, CORS, compression, the model list, body limits, the upstream client, logging, tracing, tunnels and the command line.
- Write failures while relaying: a client that disconnects after line n is the run on the first n lines.
- Configuration parsing; a thinking mode other than enabled or disabled.
- Request field whitelisting, tool, tool-choice and function-call conversion, text extraction from content lists, user-id validation and model mapping: independent cases; requests start with textual content.
- Null or non-object tool calls, entries and messages, negative tool-call indexes, ids, types or names that are neither strings nor null, and tool-call arguments that are not strings, which are re-encoded as JSON text.
- Chunk metadata (id, object, created, usage) and the bytes of a re-encoded chunk; a frame is the decoded chunk.
- The fallback of `RecordResponseReasoning` for an empty context list: a prepared request always has a context.
- `RewriteResponseBody`: the order of prefixing, recording and folding is used, the JSON around it is not modelled.
- Invalid UTF-8 and the typed-slice detour of `writeValue` (marshal, unmarshal, write): values are decoded JSON.
- The regular-expression engine: the thinking-block pattern is a left-to-right scanner.
- Isolation.OthersDoNotShow: limits are off; with limits the rows of one client can evict those of another, which is then recovered as if they had never been written.
- KeyContents.EchoFindsOwn: lookup under the scope of the recording; Session and RecoveredTurn say when an echo is looked up under it.
- Session.EveryTurnIsReplayed: with age or row limits the rows of the conversation must not be evicted while a request is prepared and recorded; each request is prepared and recorded without others in between (InterleavedSession.EveryInterleavedTurnIsReplayed has them).
- DisplayedSession.EveryDisplayedTurnIsReplayed: responses have one choice, reasoning comes first and does not contain the closing tag, and contents are clean, because otherwise the strip of the echo does not give the recorded content back; with limits no row of the conversation is evicted.
- InterleavedSession.EveryInterleavedTurnIsReplayed: nobody writes another reasoning under a response's own key, as a regenerated response with the same content would, and the row is not evicted or cleared; backfills of the same request are steps like any other.
- StreamRecording.StreamedLookupAgrees: one choice; with an age limit, recording must finish before its first row is too old; and no entry of the choice follows its finish reason. Several choices: see OwnWrites.OwnKeysAreExact.
- OwnWrites.OwnKeysAreExact: says nothing about a key that several choices write, such as a shared tool name: the visiting order decides it.
- DisplayFold.StreamedDisplayIsFold: only for choices whose reasoning comes before content, tool calls and finish; otherwise the display has several blocks and the fold has one.
- OneShot.LoopRunsAtMostOnce: the exact condition under which no cut at a notice happens is a hypothesis; LateNotice.OneShotFails is a request that violates it.
- OneShot.RecoverReplaysIff: the same hypothesis; a request without a user message that is cut at a late notice may or may not end complete, and only the direction of OneShot.RecoverReplaysWhenever is stated for it.
- Answers.RecoverReplaysIffAnswered: the same hypothesis in terms of the table, and limits are off.
- OneShot.NoticeIff: the same hypothesis.
- RecoveredTurn.RecoveredTurnIsExact: for a request without an earlier notice; RecoveredTurn.RecoveredTurnIsExactByTurn has the other requests, unless a scoped row of the echo holds another reasoning.
- Answers.FirstPassFindsIff: limits are off; with limits the backfills of the pass can evict what a later turn needs.
