# PyClaw, modelled and proved in Dafny

PyClaw is a multi-channel AI assistant. Several workers share chat sessions through Redis; each
session is a parent-linked log driven by an agent loop that streams a language model and runs tools
under approval. This project models that machinery and proves what it keeps.

Check everything with `dafny verify dfyconfig.toml`.

- **Session affinity gateway** (`EventCodec`, `FeishuRouting`, `Gateway`, `GatewaySafety`, `GatewayRouter`): workers,
  the shared owner map and dedup keys, forward channels, expiry, errors and crashes as a state machine
  whose steps are single Redis commands; the routing program is proved to be a run of it under any
  interference at its awaits.
- **Session log** (`SessionTree`, `SessionContext`, `ContextShown`, `SessionObject`): the tree, the branch of the
  leaf, the context rebuilt from it, compaction.
- **Agent loop** (`ToolCallAssembly`, `ToolRegistry`, `ToolLoop`, `ToolPhase`, `ToolJudgement`, `RunModel`,
  `RunSafety`, `RunReading`, `RunAnswers`, `RunTree`, `RunContext`, `AgentRun`, `RunProgram`): `RunModel` says what one iteration does given what
  the outside world answers; `RunProgram` is the program, an object that appends, emits and audits, and is
  proved to do exactly that; the other modules prove what holds of every run.
- **Approval hooks** (`Approval`, `ApprovalHooks`, `FeishuSessions`): waiting for a person, on the web and on
  Feishu, and who may answer in which Feishu session.
- **Conversation queue** (`ChatLane`, `ChatQueue`): the consumer that is started on demand and leaves when idle.
- **Curator** (`CuratorModel`, `CuratorReview`, `CuratorCycle`): scan and review under a lock that can be lost.
- **Profiles and the last administrator** (`ProfileStore`, `AdminGuard`, `AdminRace`): commands one after the
  other, two at once, and any number interleaved.
- **Budgets, searches, codecs** (`PromptBudget`, `SkillsPrompt`, `XmlEscape`, `Base64Url`, `WebToken`,
  `SopDocument`, `SkillDocument`, `FuzzyMatch`), over `Prelude` and `PyText`.

## What the outside world is

Redis commands, model streams, tools, hooks, the clock and the lock are parameters: sequences or
functions that may answer anything within the contract named at their declaration (one output per call,
one ruling per gated call, fresh entry ids, a lock that stays lost). Hashing, JSON text, lower-casing and
turn classification are uninterpreted functions.

## Where the code falls short of what a reader would expect

- A publish that reaches nobody, an expired owner or a Redis error can give one session two workers
  (`GatewaySafety`: a continuation of any run that served it); an expired dedup key or a Redis error there lets
  an event be accepted twice, and a crash inside the dedup call can swallow one.
- The loop detector takes every imported tool for an unknown one (`ToolLoop.ImportedToolTripsDetector`),
  and the offered name of a tool from a server ending in an underscore resolves to nothing or to another tool
  (`ToolRegistry.CollisionIsRegistered`).
- Approving a call on the web while an earlier one is still waited for is lost
  (`ApprovalHooks.EarlyApprovalIsLost`); a reply under an unprefixed conversation id never arrives
  (`ApprovalHooks.ReplyMeetsEntry`).
- In a Feishu group chat no named operator can approve a call, because the originator is taken to be the chat
  (`FeishuSessions.GroupSessionIsNeverApproved`); in a direct chat a late click without a name takes the
  approver off the record (`ApprovalHooks.DeciderCanGoUnnamed`).
- Calls sharing an id share a denial, whatever their records say (`ToolPhase.AuditTellsExecution`), and a
  generated id can be one the provider gave (`ToolCallAssembly.FallbackCanCollide`).
- A compaction right behind a tool reply keeps the reply and drops its request
  (`RunContext.KeptReplyAnswersNothing`).
- The curator stamps a scan as complete although it saw the lock lost inside, when the review after it looks at
  nothing (`CuratorCycle.ScanStampAfterLoss`).
- The idle exit of the web consumer can drop a message (`ChatLane.LateMessageIsLost`).
- Administrators whose commands overlap can leave nobody in the role (`AdminGuard.WhenOverlapLeavesNobody`).
- A profile filed under a key that is not its own is served to another user (`ProfileStore.MisfiledProfileIsServed`).
- A kebab-case name can hold the front-matter ruler (`SkillDocument.KebabNameCanHoldRuler`), which cuts the generated file short.

## Model

| member | source | states |
|---|---|---|
| `EventCodec.JsonRoundTrip` | src/pyclaw/gateway/event_codec.py:7-12 | Turning a JSON tree into a namespace object and back gives the tree again exactly when no key in it starts with an underscore |
| `EventCodec.JsonableIsJson` | src/pyclaw/channels/feishu/handler.py:158-169 | What is serialized for forwarding is always plain JSON, whatever object it came from |
| `EventCodec.JsonableKeeps` | src/pyclaw/channels/feishu/handler.py:158-169 | Serializing keeps every value, list item and dictionary key, and of an attribute object everything but underscore-led attributes |
| `EventCodec.PayloadSettles` | src/pyclaw/channels/feishu/handler.py:158-186 | A second hop changes nothing that the first did not change |
| `EventCodec.HopStripsHiddenKeys` | src/pyclaw/channels/feishu/handler.py:158-169 | After one hop no underscore-led key is left |
| `EventCodec.RebuildAttr` | src/pyclaw/gateway/event_codec.py:7-23 | Reading a visible attribute after a hop is the hop of reading it before |
| `EventCodec.RebuildKeepsRouting` | src/pyclaw/channels/feishu/handler.py:189-211 | A forwarded event is routed under the same session key and deduplicated under the same message id, and passes the same mention test |
| `EventCodec.SessionKeyNamespace` | src/pyclaw/channels/feishu/handler.py:189-203 | Feishu session keys never meet the keys that web connections claim |
| `FeishuRouting.DeduplicatedUnderItsId` | src/pyclaw/channels/feishu/handler.py:387-412 | An event is deduplicated under exactly the text at the path event.message.message_id of its tree |
| `FeishuRouting.OnlyThatAttribute` | src/pyclaw/channels/feishu/handler.py:387-412 | Replacing that attribute replaces the id; replacing any attribute it does not lie under leaves the id |
| `FeishuRouting.AdmittedExactly` | src/pyclaw/channels/feishu/handler.py:381-396 | An event is handled exactly when it names id, chat, thread and sender, and, in a group, mentions the bot |
| `FeishuRouting.SessionsHaveKeys` | src/pyclaw/channels/feishu/handler.py:189-203 | Two events have one session key exactly when they belong to one session: same sender in direct chats, same chat in groups, there also same sender in scope user and same thread in scope thread |
| `FeishuRouting.ApplicationsAreApart` | src/pyclaw/channels/feishu/handler.py:189-203 | Events of two applications never share a session key |
| `FeishuRouting.NotBecauseOfAnother` | src/pyclaw/channels/feishu/handler.py:397-412 | In any run a message is never discarded because of one with another id: a discarded copy has another accepted copy under its own id, or its id was orphaned by a crash |
| `FeishuRouting.OnlyCopyIsKept` | src/pyclaw/channels/feishu/handler.py:397-412 | In any run without half-done commands a message whose id no other arrival carries is never discarded |
| `GatewaySafety.FeishuIsFaithful` | src/pyclaw/channels/feishu/handler.py:383-412 | The Feishu key, id and admission functions survive serialization and reconstruction, which is all the protocol proofs assume of them |
| `Gateway.StepKeeps` | src/pyclaw/gateway/router.py:38-63 | Every atomic Redis step, delivery, error, crash or expiry keeps the invariant: each copy of an event is in exactly one of routing, channel, accepted, discarded, lost, and still carries the key and id it entered with |
| `Gateway.Reachable` | src/pyclaw/gateway/router.py:27-63 | Over all interleavings of all workers the invariant holds, so no copy is duplicated or disappears unaccounted |
| `GatewaySafety.SingleOwner` | src/pyclaw/gateway/router.py:38-63 | In a run without expiry, Redis error or undelivered publish for a key, crashes allowed, all calls answering local for it do so on one worker, and each of its events is forwarded at most once |
| `GatewaySafety.ExpiryBreaksIt` | src/pyclaw/gateway/affinity.py:50-60 | Any run in which a worker has answered for a key can be continued by one expiry of its owner entry so that any other worker answers for it too |
| `GatewaySafety.RedisErrorBreaksIt` | src/pyclaw/gateway/router.py:27-36 | Any such run can be continued by one Redis error, and the fall back to local, to the same effect |
| `GatewaySafety.UndeliveredPublishBreaksIt` | src/pyclaw/gateway/router.py:53-61 | Any such run whose answering worker is still the owner can be continued by its leaving, so that a publish reaches nobody, to the same effect |
| `GatewaySafety.QuietOwner` | src/pyclaw/gateway/router.py:38-63 | In a quiet run the worker that answered for a key is its owner, so the three continuations apply to every quiet run with an answer |
| `GatewaySafety.ServedAtOnce` | src/pyclaw/gateway/router.py:38-63 | A quiet run with an answer exists, for any worker and event |
| `GatewaySafety.ForceClaimReason` | src/pyclaw/gateway/router.py:53-61 | A call is about to force a claim only after its own publish for that key found no subscriber |
| `GatewaySafety.TakeoverReason` | src/pyclaw/gateway/affinity.py:50-71 | The owner of a key is replaced by another only by a worker whose own publish for it reached nobody, or by a web connection claiming its own key; renewing never does it |
| `GatewaySafety.AtMostOncePerGate` | src/pyclaw/channels/feishu/dedup.py:16-29 | Without expiry of the dedup key, a message id is accepted at most once through Redis and at most once per worker through its local memory |
| `GatewaySafety.AtMostOnce` | src/pyclaw/channels/feishu/dedup.py:16-29 | With Redis answering the dedup test and the key unexpired, a message id is accepted at most once across all workers, churn and hops |
| `GatewaySafety.DedupExpiryAcceptsTwice` | src/pyclaw/channels/feishu/dedup.py:16-29 | After any run that accepted an id, the expiry of its dedup key alone lets it be accepted again |
| `GatewaySafety.DedupErrorAcceptsTwice` | src/pyclaw/channels/feishu/dedup.py:16-29 | So does one Redis error at the dedup test of a worker that has not seen the id itself |
| `GatewaySafety.DiscardedOnlyAfterAcceptance` | src/pyclaw/channels/feishu/handler.py:397-412 | A copy is dropped as duplicate only if one with its id was accepted, or a worker died between setting the dedup key and reading the reply |
| `GatewaySafety.OrphanSwallows` | src/pyclaw/channels/feishu/dedup.py:16-29 | The exception is real: a concrete run in which an event is discarded although none was accepted |
| `GatewaySafety.LateLookAnswersUnowned` | src/pyclaw/gateway/router.py:45-51 | A call that lost the claim and finds no owner on its second look answers local without owning the key; one that finds another owner goes on to publish to it |
| `GatewaySafety.PublishedSurvivesCrash` | src/pyclaw/gateway/router.py:53-63 | A published copy survives the death of the worker that published it |
| `GatewaySafety.ExecutedClaimStays` | src/pyclaw/gateway/router.py:27-46 | A claim executed before its reply was lost leaves the key with the caller, who answers local |
| `GatewaySafety.ExecutedPublishDuplicates` | src/pyclaw/gateway/router.py:27-56 | A publish executed before its reply was lost leaves two copies, one with the target and one handled locally |
| `GatewaySafety.ExecutedCommandProtects` | src/pyclaw/channels/feishu/dedup.py:16-29 | After an error at the dedup test the next copy is discarded exactly when the command had been executed |
| `GatewayRouter.Cluster.Resolve` | src/pyclaw/gateway/affinity.py:42-48 | Reads the owner and changes nothing |
| `GatewayRouter.Cluster.Claim` | src/pyclaw/gateway/affinity.py:50-57 | Claims exactly when the key has no owner, as one step |
| `GatewayRouter.Cluster.Renew` | src/pyclaw/gateway/affinity.py:59-60 | Changes no owner, whoever calls it |
| `GatewayRouter.Cluster.Release` | src/pyclaw/gateway/affinity.py:8-14 | Deletes the key exactly when the caller owns it |
| `GatewayRouter.Cluster.ForceClaim` | src/pyclaw/gateway/affinity.py:66-71 | Overwrites the owner of one key |
| `GatewayRouter.Cluster.Forward` | src/pyclaw/gateway/forwarder.py:22-26 | Reports delivery exactly when the target is subscribed, and then the copy is in its channel |
| `GatewayRouter.Cluster.Route` | src/pyclaw/gateway/router.py:27-63 | Run under any interference of the other workers at every await, the call's effect is a run of the state machine; undisturbed, it answers forwarded exactly when a live other worker owns the key, and otherwise leaves the key with the caller |
| `GatewayRouter.Cluster.IsDuplicate` | src/pyclaw/channels/feishu/dedup.py:16-29 | The dedup call performs one dedup step and the copy ends up accepted or discarded accordingly |
| `GatewayRouter.OthersKeepCall` | src/pyclaw/gateway/router.py:38-63 | No step of another call or of the environment moves a call that is waiting |
| `SessionTree.BranchUnfolds` | src/pyclaw/models/session.py:108-121 | The branch of an entry is its parent's branch followed by the entry |
| `SessionTree.BranchIsChain` | src/pyclaw/models/session.py:108-121 | The branch is linked parent to child, starts at a root and ends in the requested entry, and holds stored entries only |
| `SessionTree.BranchHasNoRepeats` | src/pyclaw/models/session.py:108-121 | No id occurs twice in a branch, so the walk ends |
| `SessionTree.AppendKeepsWellFormed` | src/pyclaw/models/session.py:94-100 | The append order goes on listing the entries, each exactly once |
| `SessionTree.AppendKeepsAcyclic` | src/pyclaw/models/session.py:94-100 | Appending a fresh entry keeps the parent relation acyclic exactly when its parent chain does not already dangle on the new id |
| `SessionTree.AppendExtendsBranch` | src/pyclaw/models/session.py:94-121 | Appending below the leaf extends the branch by exactly the new entry |
| `SessionContext.ContextIsIncremental` | src/pyclaw/models/session.py:123-155 | Appending a message extends the conversation context by exactly that message, exactly when its id is not the unresolved first-kept id of the last compaction |
| `SessionContext.OtherEntriesAreSilent` | src/pyclaw/models/session.py:123-155 | Any other entry leaves the context alone, under the same exact condition |
| `SessionContext.EmptyIsRunnerBuilt` | src/pyclaw/models/session.py:88-92 | Helper, the base of the rows below: an empty tree is one that runs built |
| `SessionContext.CompactionResets` | src/pyclaw/models/session.py:123-155 | After a compaction that keeps the leaf the context is the summary and at most the previous leaf message |
| `SessionContext.RunnerStaysBuilt` | src/pyclaw/core/agent/runner.py:134-143 | What a run appends keeps the tree a single chain in append order |
| `SessionContext.RunnerBranch` | src/pyclaw/core/agent/runner.py:134-143 | In a tree built by runs the branch of the leaf is the whole log in order and the tree is acyclic |
| `SessionContext.RunnerContextGrows` | src/pyclaw/core/agent/runner.py:134-152 | There, appending a message always extends the context by exactly that message, with or without compactions before |
| `SessionContext.RunnerCompactionResets` | src/pyclaw/core/agent/runner.py:968-982 | There, a compaction leaves the summary and at most the previous leaf message |
| `SessionObject.Session.Append` | src/pyclaw/models/session.py:94-100 | Rejects an existing id and changes nothing, else appends |
| `SessionObject.Session.GetBranch` | src/pyclaw/models/session.py:108-121 | The loop over parent links returns the branch, for the given entry or else the leaf |
| `SessionObject.Session.BuildSessionContext` | src/pyclaw/models/session.py:123-155 | The loops over the branch compute the context |
| `ContextShown.ContextShowsBranch` | src/pyclaw/models/session.py:123-155 | Without a compaction the model is shown every message entry of the branch in order, each with its own role, calls, call id and content; a tool text as one text part, images and non-blank texts in order, blank ones not at all |
| `ContextShown.ContextShowsTail` | src/pyclaw/models/session.py:123-155 | After compactions it is shown the latest summary and then, likewise, the message entries of the kept tail |
| `ContextShown.EmptyContext` | src/pyclaw/models/session.py:123-155 | Helper: nothing is shown of an empty branch |
| `SessionObject.Session.TryCompaction` | src/pyclaw/core/agent/runner.py:917-984 | A failed or raising engine leaves the tree as it was before the call; success with a summary adds one compaction entry that keeps the leaf; anything else adds nothing |
| `SessionObject.Session.Restore` | src/pyclaw/core/agent/compaction/checkpoint.py:10-14 | Restoring a checkpoint gives back the tree it was taken of |
| `ToolCallAssembly.SlotFields` | src/pyclaw/core/agent/llm.py:415-433 | Arguments are joined in order; id and name are the last non-empty ones |
| `ToolCallAssembly.AssembledPerIndex` | src/pyclaw/core/agent/llm.py:415-433 | Each index is assembled from exactly its own fragments, in order of arrival |
| `ToolCallAssembly.AssemblyIsPerIndex` | src/pyclaw/core/agent/llm.py:415-433 | Streams that agree per index give the same calls |
| `ToolCallAssembly.ChunkBoundariesDoNotMatter` | src/pyclaw/core/agent/llm.py:415-433 | Merging chunk by chunk equals merging all deltas at once |
| `ToolCallAssembly.DifferentCallsCommute` | src/pyclaw/core/agent/llm.py:415-433 | Neighbouring deltas of different indices may be swapped |
| `ToolCallAssembly.AscendingIsUnique` | src/pyclaw/core/agent/llm.py:436-458 | There is only one strictly increasing order of the indices, so the finalized list is determined |
| `ToolCallAssembly.ToolCallBuffer.Merge` | src/pyclaw/core/agent/llm.py:415-433 | The loop that updates the buffer in place computes the merge of its deltas |
| `ToolCallAssembly.ToolCallBuffer.Finalize` | src/pyclaw/core/agent/llm.py:436-458 | One call per index, strictly ordered by index, each with the fields of its slot |
| `ToolCallAssembly.StreamIsFinalized` | src/pyclaw/core/agent/llm.py:415-458 | From the stream: each call carries the last name and id the provider gave its index, else a generated id, and its argument text joined in order, normalised when it is JSON and an empty object when there is none |
| `ToolCallAssembly.FallbackIdsDiffer` | src/pyclaw/core/agent/llm.py:436-458 | Calls the provider sent without id get ids that tell them apart from each other |
| `ToolCallAssembly.WhenFinalIdsDiffer` | src/pyclaw/core/agent/llm.py:436-458 | The finalized calls have pairwise different ids exactly when the ids the provider gave are pairwise different and none of them is the fallback of a call it sent without |
| `ToolCallAssembly.FallbackCanCollide` | src/pyclaw/core/agent/llm.py:436-458 | A given id can be the fallback of another call |
| `ToolRegistry.RegisterKeepsRegistered` | src/pyclaw/core/agent/tools/registry.py:101-139 | Helper, the invariant of the rows below: registering and unregistering keep every tool under its own admitted name |
| `ToolRegistry.OfferedNameResolves` | src/pyclaw/core/agent/tools/registry.py:141-174 | A tool is found again under the name the model was offered exactly when it has a name and does not come from a server whose name ends in an underscore |
| `ToolRegistry.OfferedNamesCollide` | src/pyclaw/core/agent/tools/registry.py:141-174 | Two registered tools are offered under one name exactly when they differ in the side of the colon on which an underscore stands; a call then runs the tool whose server does not end in it |
| `ToolRegistry.CollisionIsRegistered` | src/pyclaw/core/agent/tools/registry.py:101-174 | Concrete: a registered tool of a server ending in an underscore is not found under its offered name, and once its neighbour is registered that one is found instead |
| `ToolRegistry.ImportedToolsCountAsUnknown` | src/pyclaw/core/agent/runner.py:1035-1041 | Under its offered name a registered tool counts as unknown to the loop detector exactly when it was imported |
| `ToolLoop.StreakLengthIsMaximal` | src/pyclaw/core/agent/runner.py:1024-1069 | The counted streak is the maximal run of turns with the same first unknown name |
| `ToolLoop.MemoryIsTheStreak` | src/pyclaw/core/agent/runner.py:1024-1069 | Over any history the machine's count is the current streak and it is warned exactly when the streak has reached the threshold |
| `ToolLoop.ActionByPosition` | src/pyclaw/core/agent/runner.py:1024-1069 | In each maximal streak: proceed before the threshold, warn at it, terminate after it |
| `ToolLoop.NoThresholdNoAction` | src/pyclaw/core/agent/runner.py:1032-1033 | Helper: a threshold of zero or less switches the detector off |
| `ToolLoop.StopFollowsWarning` | src/pyclaw/core/agent/runner.py:644-661 | A run is first terminated by the turn right after a warning about the same name |
| `ToolLoop.UnknownIsFirst` | src/pyclaw/core/agent/runner.py:1024-1069 | The unknown name of a turn is that of its first call the registry does not list |
| `ToolLoop.ImportedToolTripsDetector` | src/pyclaw/core/agent/runner.py:1024-1069 | A registered imported tool that is called, and found, in every turn is warned about at the threshold and ends the run one turn later |
| `ToolPhase.TierIsTheStricter` | src/pyclaw/core/agent/runner.py:681-710 | Helper, the tier in the terms of its two sources: it ranks as the stricter of the turn's and the server's, is one of the two, and is marked forced exactly when the server's is strictly stricter |
| `ToolPhase.UnattendedApproval` | src/pyclaw/core/agent/runner.py:725-802 | Helper, a table of the calls that go through without anybody being asked, per tier, forced tier, tool class and gate |
| `ToolJudgement.CallIsJudged` | src/pyclaw/core/agent/runner.py:681-802 | The judgement of a call from registry, tiers and gate alone: read-only wins and lets known harmless tools through, an unrestricted turn passes all, a server that asks for approval in an unrestricted turn always has somebody asked, and in the approval tier the gate decides on the tool's registered name; with the record each leaves |
| `ToolJudgement.OfferedToolIsGatedByItsName` | src/pyclaw/core/agent/runner.py:681-802 | A tool called under its offered name in the plain approval tier goes through unasked exactly when there is no hook or the gate passes its registered name, which its record carries |
| `ToolJudgement.AskedUnderItsOwnName` | src/pyclaw/core/agent/runner.py:804-833 | A call somebody is asked about is put to the hook and requested under the tool's registered name |
| `ToolJudgement.AnnouncedUnderItsOwnName` | src/pyclaw/core/agent/runner.py:820-826 | And that request is among the events of the phase, in its place behind the starts |
| `ToolJudgement.AskedIsRuledOn` | src/pyclaw/core/agent/runner.py:804-839 | Its record carries that name and the hook's ruling, which alone decides; without a hook it is denied |
| `ToolPhase.EachCallOnce` | src/pyclaw/core/agent/runner.py:712-895 | Every call gets exactly one audit record over run and hook, and exactly one answer |
| `ToolJudgement.AnswersStandInOrder` | src/pyclaw/core/agent/runner.py:841-895 | The answers of a phase are the refusals in call order and then the outputs in call order, each call's own |
| `ToolJudgement.PhaseShows` | src/pyclaw/core/agent/runner.py:663-895 | The phase shows a start per call in order, the requests, and an end per answer; the answers stand in the session in the order of their ends |
| `ToolPhase.AuditedDecision` | src/pyclaw/core/agent/runner.py:725-839 | Helper: the record of a call carries its id and says deny exactly when the call is blocked; only the literal word blocks |
| `ToolPhase.AuditTellsExecution` | src/pyclaw/core/agent/runner.py:835-864 | In a given setting, the records tell which calls are executed whatever the hook will rule, exactly when any two calls under one id are let through alike, or denied alike, before anybody is asked |
| `ToolPhase.DistinctIdsTellExecution` | src/pyclaw/core/agent/runner.py:835-864 | They do so in every setting and for all rulings exactly when the call ids are pairwise distinct |
| `ToolPhase.OpenClashMisleads` | src/pyclaw/core/agent/runner.py:835-864 | Any two calls under one id that are not so settled make the records mislead under some rulings of the hook |
| `ToolPhase.SharedIdRefusesApproved` | src/pyclaw/core/agent/runner.py:841-844 | Two calls under one id: one audited as approved is refused |
| `AgentRun.DeniedAreRefused` | src/pyclaw/core/agent/runner.py:725-839 | An id in the denied table belongs to some blocked call, through screening, missing hook or ruling |
| `AgentRun.RefusedAreDenied` | src/pyclaw/core/agent/runner.py:725-839 | And every blocked call's id is in it |
| `AgentRun.WebHookFits` | src/pyclaw/core/agent/runner.py:820-839 | The records a run counts on for gated calls are, under the rulings its reply windows amount to, the ones the web hook writes for them |
| `AgentRun.FeishuHookFits` | src/pyclaw/core/agent/runner.py:820-839 | Likewise the Feishu hook |
| `AgentRun.WebRunsWhatIsApproved` | src/pyclaw/core/agent/runner.py:820-895 | Run and web hook together: a call is answered with its output exactly when each call under its id is let through by screening or has an approval as the last reply in its own window |
| `AgentRun.FeishuRunsWhatIsApproved` | src/pyclaw/core/agent/runner.py:820-895 | Run and Feishu hook together: likewise, where the card must have been posted and the reply have passed the originator check |
| `Approval.SettleIsLast` | src/pyclaw/channels/web/chat.py:157-165 | An entry that hears several replies keeps the last one for its key that it admits, and stays open without any |
| `Approval.HeardAt` | src/pyclaw/channels/web/chat.py:157-165 | A reply reaches its own entry and no other |
| `Approval.HeardMinus` | src/pyclaw/channels/web/chat.py:146-165 | Opening or closing one entry does not change what the others hear |
| `Approval.Table.SetDecision` | src/pyclaw/channels/web/chat.py:157-165 | A reply settles an existing entry and is dropped otherwise |
| `Approval.Table.Receive` | src/pyclaw/channels/feishu/card_callback.py:67-94 | A click by a named operator other than the entry's originator never reaches the table; any other settles the entry, if there is one |
| `Approval.Table.CreatePending` | src/pyclaw/channels/web/chat.py:146-150 | Opens an entry, replacing one under the same key |
| `Approval.Table.Await` | src/pyclaw/channels/web/chat.py:58-60 | During one await the table hears the arriving replies in order |
| `ApprovalHooks.WebApproves` | src/pyclaw/channels/web/tool_approval_hook.py:80-124 | A call is approved exactly when the last reply in its own waiting window approves it, and timed out exactly when there was none |
| `ApprovalHooks.EarlyApprovalIsLost` | src/pyclaw/channels/web/tool_approval_hook.py:58-78 | All requests are announced first but awaited one by one: the hook follows the person's last word exactly unless that word is an approval given before the call's own wait began |
| `ApprovalHooks.FeishuApproves` | src/pyclaw/channels/feishu/tool_approval_hook.py:103-205 | A call is approved exactly when its card was posted and the last click up to the wake-up that gets past the originator check approves it |
| `ApprovalHooks.FeishuNamesLast` | src/pyclaw/channels/feishu/tool_approval_hook.py:164-204 | The decision is that of the last admitted click up to the wake-up, the name on record that of the last admitted click before the entry is closed |
| `ApprovalHooks.OnlyOriginatorIsNamed` | src/pyclaw/channels/feishu/card_callback.py:67-94 | In a session with an originator no other person is ever named on record |
| `ApprovalHooks.FeishuNamesDecider` | src/pyclaw/channels/feishu/tool_approval_hook.py:164-204 | There, the audit names the operator whose click decided exactly unless the last click while the entry is being closed is nameless and the deciding one was not, or the reverse |
| `ApprovalHooks.DeciderCanGoUnnamed` | src/pyclaw/channels/feishu/tool_approval_hook.py:181-202 | In every session with an originator: his approval, followed by a nameless click while the card is patched, is recorded as nobody's |
| `FeishuSessions.FeishuOriginator` | src/pyclaw/channels/feishu/tool_approval_hook.py:92-101 | The originator read off the session id is the sender in a direct chat and the chat itself in any other, in all three scopes and behind any rotation suffix |
| `FeishuSessions.GroupChatIsNeverApproved` | src/pyclaw/channels/feishu/card_callback.py:67-94 | Where the originator is nobody's user id, clicks of named operators settle nothing: the call is denied for timeout, or for a card that was not posted |
| `FeishuSessions.GroupSessionIsNeverApproved` | src/pyclaw/channels/feishu/handler.py:189-203 | So it is for every session of every group chat |
| `ApprovalHooks.WebKeysDiffer` | src/pyclaw/channels/web/chat.py:146-160 | Entries of two conversations or calls have different keys as long as call ids hold no colon |
| `ApprovalHooks.WebKeysCollide` | src/pyclaw/channels/web/chat.py:146-160 | With a colon in a call id they can coincide |
| `ApprovalHooks.ReplyMeetsEntry` | src/pyclaw/channels/web/chat.py:646-651 | The client's reply is looked up under the key the hook waits on exactly when the client sent the prefixed form of the conversation id |
| `ApprovalHooks.SessionIsOwn` | src/pyclaw/channels/web/chat.py:418-432 | A prefixed conversation id is taken as it is from its own user and refused from any other; a bare one is prefixed with the user |
| `ApprovalHooks.WebToolApprovalHook.WaitForUserDecision` | src/pyclaw/channels/web/tool_approval_hook.py:80-124 | One decision, one audit record, the entry gone afterwards, other entries only hear their own replies |
| `ApprovalHooks.WebToolApprovalHook.BeforeToolExecution` | src/pyclaw/channels/web/tool_approval_hook.py:58-78 | One decision and one record per call, in order; no entry of theirs is left |
| `ApprovalHooks.FeishuToolApprovalHook.WaitForUserDecision` | src/pyclaw/channels/feishu/tool_approval_hook.py:103-205 | The same with the post-failed and timeout exits, replies arriving at each of the awaits |
| `ApprovalHooks.FeishuToolApprovalHook.BeforeToolExecution` | src/pyclaw/channels/feishu/tool_approval_hook.py:67-90 | One decision and one record per call, in order; no entry of theirs is left |
| `RunSafety.OneTerminalEvent` | src/pyclaw/core/agent/runner.py:368-905 | Every run ends within the iteration limit, emits exactly one Done or error event, as its last, and reports the reason that event carries |
| `RunSafety.NudgesAreBounded` | src/pyclaw/core/agent/runner.py:548-579 | At every point of the transcript the replies without tool calls since the last execution number at most the sum of the three positive limits, plus one for the final answer |
| `RunSafety.AnswerIsRecorded` | src/pyclaw/core/agent/runner.py:581-610 | The answer a Done event announces is the last message left in the session |
| `RunSafety.PhaseExecutes` | src/pyclaw/core/agent/runner.py:841-897 | The retry counters are reset exactly in those tool phases that leave an output in the session |
| `RunAnswers.EveryCallIsAccountedFor` | src/pyclaw/core/agent/runner.py:663-895 | Over a whole run, however it ends, each call id is started, finished, replied to in the session and audited equally often |
| `RunAnswers.RequestsAreAnswered` | src/pyclaw/core/agent/runner.py:612-661 | Each request for tools is directly followed by one reply per call and replies stand nowhere else; all requests are answered exactly when the run was never warned about an unknown tool |
| `RunAnswers.PhaseBalances` | src/pyclaw/core/agent/runner.py:663-895 | In one tool phase each call id is started, finished, replied to and audited as often as it was called |
| `RunTree.RunsKeepTheShape` | src/pyclaw/core/agent/runner.py:134-143 | Over a whole run the session tree stays an acyclic single chain and its log grows by exactly the run's messages, in order |
| `RunTree.LogKeepsMessages` | src/pyclaw/core/agent/runner.py:134-192 | Each message of the run is kept in the log field by field, the partial mark and the kept entry of a compaction included, below the one before it |
| `RunContext.ContextOfRun` | src/pyclaw/models/session.py:123-155 | What the model is shown of a session a run has grown: without a compaction the context before the run and every message of it, after one the summary, the message before it and every message since |
| `RunContext.ModelSeesTheSession` | src/pyclaw/models/session.py:123-155 | Every message since the last compaction is presented with its role, text, calls and call id, and a request among them is directly followed by one tool message per call under its id exactly where the transcript has its replies |
| `RunContext.ModelSeesTheRun` | src/pyclaw/core/agent/runner.py:215-905 | Over a whole run: the first message is the user's, all messages since the last compaction are so presented, and unless the run was warned about an unknown tool every request is shown with its replies |
| `RunContext.KeptReplyAnswersNothing` | src/pyclaw/core/agent/runner.py:968-982 | A compaction right behind a tool reply leaves the model a summary and then a tool message that answers nothing |
| `RunContext.CompactionBehindReply` | src/pyclaw/core/agent/runner.py:395-409 | That comes about in a concrete run: a turn that runs its tools, then a context that has to be trimmed |
| `RunReading.IterationIsTold` | src/pyclaw/core/agent/runner.py:368-905 | What one input adds, told by the transcript and the earlier turns instead of the loop's counters: the clock, the abort flag, compactions, broken streams, nudged and final replies, and turns with calls by their place in the streak of unknown tools |
| `RunReading.RunEndsAsTold` | src/pyclaw/core/agent/runner.py:368-905 | Every run ends by the input of its last iteration, with exactly the code, messages and events that belong to that input, or by the iteration limit |
| `RunReading.RepliesAreNudged` | src/pyclaw/core/agent/runner.py:548-610 | In the transcript of a whole run a complete reply without calls is followed by a nudge of its own kind exactly while fewer of that kind than its own limit stand since the last execution; otherwise it is the last message and the run is done. Nudges stand nowhere else |
| `RunReading.DetectorIsTold` | src/pyclaw/core/agent/runner.py:1024-1069 | The detector's answer to a turn is its place in the maximal streak, and the name it reports is that turn's unknown one |
| `RunReading.TextIsJoined` | src/pyclaw/core/agent/runner.py:513-520 | The text of a reply is its chunks put together in order |
| `RunProgram.Runner.Append` | src/pyclaw/core/agent/runner.py:134-143 | Appends one message below the leaf under a fresh id |
| `RunProgram.Runner.PersistPartial` | src/pyclaw/core/agent/runner.py:155-192 | Keeps streamed text as a partial message, if there is any |
| `RunProgram.Runner.TryCompaction` | src/pyclaw/core/agent/runner.py:917-984 | Adds a compaction entry exactly when the engine succeeded with a summary, and undoes whatever a failing engine did to the tree |
| `RunProgram.Runner.ScreenCalls` | src/pyclaw/core/agent/runner.py:712-802 | The loop collects the gated calls, the ids denied outright, and the records of the automatic decisions |
| `RunProgram.Runner.RuleOnGated` | src/pyclaw/core/agent/runner.py:804-839 | Without hook all gated calls are denied, with one exactly those it denies, one record each |
| `RunProgram.Runner.AnswerRefused` | src/pyclaw/core/agent/runner.py:841-862 | A tool entry and an end event for each refused call, in call order |
| `RunProgram.Runner.AnswerExecuted` | src/pyclaw/core/agent/runner.py:866-895 | A tool entry and an end event for each executed call, in call order |
| `RunProgram.Runner.ToolPhase` | src/pyclaw/core/agent/runner.py:663-897 | The phase as a whole adds exactly the specified messages, events and records, and reports whether anything ran |
| `RunProgram.Runner.WebPhase` | src/pyclaw/core/agent/runner.py:820-897 | The phase with the web hook called in its midst: session and events come out as specified for the rulings its reply windows amount to, the specified records lie partly in the run's log and partly in the hook's, and no entry of its own stays pending |
| `RunProgram.Runner.FeishuPhase` | src/pyclaw/core/agent/runner.py:820-897 | The same with the Feishu hook |
| `RunProgram.Runner.PlainReply` | src/pyclaw/core/agent/runner.py:548-610 | A reply without calls is nudged or final as the limits say |
| `RunProgram.Runner.ToolReply` | src/pyclaw/core/agent/runner.py:612-661 | A reply with calls is stopped, warned or worked on as the detector says |
| `RunProgram.Runner.FailedStream` | src/pyclaw/core/agent/runner.py:488-509 | An overflowing context is compacted and retried, other failures end the run with their code and keep partial text |
| `RunProgram.Runner.Iterate` | src/pyclaw/core/agent/runner.py:368-509 | One pass of the loop performs exactly the specified iteration |
| `RunProgram.Runner.RunStream` | src/pyclaw/core/agent/runner.py:215-905 | The whole program performs exactly the specified run; a model that cannot see images ends it at once, with an error event but the reason done |
| `ChatLane.StepConserves` | src/pyclaw/channels/web/chat.py:94-118 | Every step keeps: history = settled, then running, then queued, in order |
| `ChatLane.RunConserves` | src/pyclaw/channels/web/chat.py:181-209 | So it is after every run of steps: no message is duplicated, reordered or forgotten |
| `ChatLane.PositionIsExact` | src/pyclaw/channels/web/chat.py:94-124 | The position a sender is told is the number of earlier messages that have not settled |
| `ChatLane.LossNeedsDirtyExit` | src/pyclaw/channels/web/chat.py:184-203 | Messages are lost exactly when the consumer leaves while something is queued |
| `ChatLane.SerialOrder` | src/pyclaw/channels/web/chat.py:181-209 | With clean exits the finished messages are an initial piece of the history |
| `ChatLane.LateMessageIsLost` | src/pyclaw/channels/web/chat.py:190-203 | A concrete run: a message enqueued between the idle timer and the consumer's last step is lost |
| `ChatLane.QueuedHasConsumer` | src/pyclaw/channels/web/chat.py:107-116 | A queued message has a consumer unless an enqueue failed on the closed task manager after queueing it |
| `ChatQueue.ConsumersAreUnique` | src/pyclaw/channels/web/chat.py:79-84 | At most one consumer task of a conversation is alive, so handlers cannot overlap |
| `ChatQueue.PruneKeepsRunning` | src/pyclaw/infra/task_manager.py:151-159 | Pruning never removes a running task |
| `ChatQueue.PrunedExactly` | src/pyclaw/infra/task_manager.py:151-159 | A finished task is kept for exactly five minutes from its start, a running one while it runs |
| `ChatQueue.TaskManager.Spawn` | src/pyclaw/infra/task_manager.py:82-110 | Hands out a new id each time, or refuses once closed, after pruning |
| `ChatQueue.SessionQueue.QueuePosition` | src/pyclaw/channels/web/chat.py:120-124 | The number of queued messages plus the running one |
| `ChatQueue.SessionQueue.Enqueue` | src/pyclaw/channels/web/chat.py:94-118 | Performs the enqueue step on its conversation and leaves the others alone; raises exactly when a consumer is needed and the manager is closed |
| `ChatQueue.SessionQueue.Take` | src/pyclaw/channels/web/chat.py:182-193 | The consumer takes the first message |
| `ChatQueue.SessionQueue.HandlerDone` | src/pyclaw/channels/web/chat.py:194-201 | The handler's end settles its message and the consumer goes on |
| `ChatQueue.SessionQueue.Leave` | src/pyclaw/channels/web/chat.py:202-209 | The consumer's exit drops its conversation's entries and no others |
| `ChatQueue.SessionQueue.OtherTask` | src/pyclaw/infra/task_manager.py:82-110 | Tasks started by others, and the pruning they cause, disturb no conversation |
| `CuratorModel.NoWriteAfterLoss` | src/pyclaw/storage/lock/mutex.py:103-109 | Once the lock was seen lost, even by the scan that swallows it, the review writes nothing any more |
| `CuratorModel.Journal.Look` | src/pyclaw/storage/lock/mutex.py:103-109 | A look reports the lock as it is and changes no row |
| `CuratorModel.Journal.Note` | src/pyclaw/core/curator.py:490-519 | A review write is possible only directly behind a passed look; the rows are the replay of the journal |
| `CuratorReview.ActionsCountChangedRows` | src/pyclaw/core/curator.py:464-534 | The actions a completed review reports equal the rows whose status it changed exactly when no entry was acted upon twice |
| `CuratorReview.ChangedAreActed` | src/pyclaw/core/curator.py:464-526 | The rows changed are exactly those of the ids acted upon |
| `CuratorReview.ReplayedReview` | src/pyclaw/core/curator.py:464-526 | The rows a review leaves are the replay of its journal |
| `CuratorReview.VerdictsAreCarriedOut` | src/pyclaw/core/curator.py:464-534 | After a review an active row is archived exactly when the last enabled decision on it that succeeds says archive, graduated exactly when that decision is a promotion, and untouched exactly when there is none; what is not enabled or not selected never happens |
| `CuratorReview.FullReviewIsTold` | src/pyclaw/core/curator.py:464-534 | The journal of a full review replays to exactly those rows, and leaves every other database alone |
| `CuratorReview.OutcomeReports` | src/pyclaw/core/curator.py:384-536 | The outcome counts the decisions acted upon per verdict and the failed promotions; nothing without entries, one failure without an answer |
| `CuratorCycle.ScanLeaves` | src/pyclaw/core/curator.py:217-330 | A scan that runs to its end graduates its candidates, archives the other stale rows and leaves the rest |
| `CuratorCycle.CuratorCycle.Decide` | src/pyclaw/core/curator.py:464-534 | The decision loop writes exactly the effects of the decisions, each behind its own look, and is otherwise cut off after an initial part, a loss being the last thing it sees |
| `CuratorCycle.CuratorCycle.RunReview` | src/pyclaw/core/curator.py:384-536 | The review of one database, from the look on entry to the outcome; one that completes leaves the rows and reports the numbers its decisions tell |
| `CuratorCycle.CuratorCycle.ReviewOne` | src/pyclaw/core/curator_cycle.py:187-215 | A review that fails for another reason than the lock still counts as attempted |
| `CuratorCycle.CuratorCycle.ReviewAll` | src/pyclaw/core/curator_cycle.py:185-218 | Without a loss every listed database is attempted, in order |
| `CuratorCycle.CuratorCycle.RunScan` | src/pyclaw/core/curator.py:174-215 | The databases are scanned in any interleaving, each doing its own writes in order behind its own look or nothing; only the two looks on entry can end the cycle, losses inside are swallowed |
| `CuratorCycle.CuratorCycle.RunReviewIfPermitted` | src/pyclaw/core/curator_cycle.py:163-218 | The review is skipped, or complete, exactly under the stated settings |
| `CuratorCycle.CuratorCycle.MarkCompletion` | src/pyclaw/core/curator_cycle.py:220-226 | Which timestamps are written |
| `CuratorCycle.CuratorCycle.RunCriticalSection` | src/pyclaw/core/curator_cycle.py:113-131 | A cycle that ends in a loss, or in an unexpected error, writes no timestamp; any other writes the scan timestamp exactly in scan mode, and the review timestamp exactly when the review was permitted and had databases, and then every listed one was attempted and no look of the whole cycle had failed. A scan timestamp behind a failed look exists exactly when the loss was met by the scan of some database only and the review then had nothing to look at |
| `CuratorCycle.ScanStampAfterLoss` | src/pyclaw/core/curator_cycle.py:113-131 | A concrete cycle of that kind: the lock lost inside the scan, the review switched off, and the scan is stamped |
| `CuratorModel.FailedLookShows` | src/pyclaw/storage/lock/mutex.py:103-109 | A journal shows a failed look exactly when the lock was lost at one of its looks |
| `ProfileStore.StoredProfileRoundTrip` | src/pyclaw/auth/profile_store.py:46-88 | Helper: what is stored is read back exactly for profiles of a known channel, user and tier |
| `ProfileStore.KeysAreDistinct` | src/pyclaw/auth/profile_store.py:28-29 | Different users or channels have different keys |
| `ProfileStore.SetKeepsOwnKeys` | src/pyclaw/auth/profile_store.py:131-146 | Writing keeps every profile under its own key |
| `ProfileStore.MisfiledProfileIsServed` | src/pyclaw/auth/profile_store.py:109-122 | A profile filed under another user's key is handed out for that user |
| `ProfileStore.RedisJsonStore.GetProfile` | src/pyclaw/auth/profile_store.py:109-129 | Redis first, then the first configured entry, then the default |
| `ProfileStore.RoleComesFrom` | src/pyclaw/auth/profile_store.py:57-129 | A readable profile under the user's own key wins, an unknown role in it counting as member; then the first configured entry of the user; else a plain member |
| `ProfileStore.RedisJsonStore.ListUsers` | src/pyclaw/auth/profile_store.py:148-176 | For every store and every order and repetition of the scan: the profiles scanned under the channel, completed by the configured ones |
| `ProfileStore.WhenListAgreesWithGet` | src/pyclaw/auth/profile_store.py:109-176 | The list holds exactly the known users, each with the profile get gives, for all complete scans, exactly when every readable profile under the channel's prefix lies under its own key |
| `ProfileStore.OwnKeysAreWellFiled` | src/pyclaw/auth/profile_store.py:131-146 | Stores that only ever were written by set are of that kind |
| `AdminGuard.WhenNobodyIsLeft` | src/pyclaw/core/commands/admin.py:202-230 | A set command leaves no administrator exactly when somebody else demotes the only one |
| `AdminGuard.RoleAfterSet` | src/pyclaw/core/commands/admin.py:202-230 | The command changes the role of its target and of nobody else |
| `AdminGuard.SetIsSeen` | src/pyclaw/core/commands/admin.py:202-230 | A command that is not refused gives its target the role and tier it names, keeps what it does not name and changes nobody else; one that would leave nobody changes nothing |
| `AdminGuard.AnAdminRemains` | src/pyclaw/core/commands/admin.py:178-236 | Any sequence of commands by current administrators, one after the other, leaves an administrator |
| `AdminGuard.WhenOverlapLeavesNobody` | src/pyclaw/core/commands/admin.py:202-230 | Any two commands that both read before either writes, in any store of own keys: nobody is left exactly when every administrator is demoted by the last of the two that writes to him, and neither target is made one |
| `AdminGuard.SimultaneousStepDown` | src/pyclaw/core/commands/admin.py:202-230 | So whenever there are exactly two administrators and both step down at once nobody is left, while one after the other leaves one |
| `AdminRace.EmptyingNeedsOverlap` | src/pyclaw/core/commands/admin.py:178-236 | Any number of commands by administrators, interleaved step by step: the last administrator is lost only by the write of a command between whose start and write somebody else than its target was demoted |
| `AdminRace.UndisturbedKeepsAdmin` | src/pyclaw/core/commands/admin.py:178-236 | Runs without such an overlap keep an administrator throughout |
| `AdminRace.OverlapIsARun` | src/pyclaw/core/commands/admin.py:178-236 | Two commands that both check before either writes are a run of that machine |
| `AdminGuard.HandleSet` | src/pyclaw/core/commands/admin.py:178-236 | For every store: refuses exactly when the actor demotes itself and the listing shows no second administrator, else writes the updated profile; where the store is filed well and the scan complete, that is when no other administrator exists |
| `PromptBudget.EnforceSystemBudget` | src/pyclaw/core/agent/system_prompt.py:114-160 | The size afterwards is exact: unchanged if it fits, else the larger of the budget and the total minus what can be removed; sections keep their order and are cut by prefix in priority order, at most one partly |
| `PromptBudget.BudgetIsMet` | src/pyclaw/core/agent/system_prompt.py:114-160 | The budget is met exactly when the untouchable rest fits |
| `PromptBudget.SkillsGoFirst` | src/pyclaw/core/agent/system_prompt.py:111-160 | Skills pay first, then the bootstrap files, the memory snapshot and the workspace; no other section is ever cut |
| `PromptBudget.CutTarget` | src/pyclaw/core/agent/system_prompt.py:122-151 | One priority name's turn frees its first truncatable section, or exactly the overflow |
| `PromptBudget.ValidatedZonesFillWindow` | src/pyclaw/models/config.py:118-150 | With an explicit reserve the four zones add up to the window exactly when validation passes |
| `PromptBudget.DerivedReserveFillsWindow` | src/pyclaw/models/config.py:134-150 | With a derived reserve they do whenever the fixed zones leave anything |
| `PromptBudget.HistoryIsTheRest` | src/pyclaw/models/config.py:134-150 | The history budget is what fixed zones and reserve leave, never negative; the reserve is the configured one, else the model's maximum, else a share of the rest |
| `SkillsPrompt.LongestFitting` | src/pyclaw/skills/prompt.py:141-155 | The binary search ends with the largest number of skills whose compact form fits |
| `SkillsPrompt.TagIsTheText` | src/pyclaw/skills/prompt.py:157-157 | Helper: the character test for an opening tag is equality with its text |
| `SkillsPrompt.CountIsHonest` | src/pyclaw/skills/prompt.py:157-157 | Counting the opening tags counts the skills shown, whatever their names hold |
| `SkillsPrompt.WarningNames` | src/pyclaw/skills/prompt.py:157-170 | The warning names the number shown and then the number there is, in decimal digits that stand for exactly these numbers |
| `SkillsPrompt.FormatGrows` | src/pyclaw/skills/prompt.py:93-100 | One more skill makes the catalogue longer |
| `SkillsPrompt.SkillIsShown` | src/pyclaw/skills/prompt.py:48-66 | A skill shows its escaped name, description and location, in compact form name and location, each in its element |
| `SkillsPrompt.CatalogueIsListing` | src/pyclaw/skills/prompt.py:69-100 | The catalogue is the introduction and, between its two tags, the listing of the skills in order, each once |
| `SkillsPrompt.SelectionIsInitial` | src/pyclaw/skills/prompt.py:127-130 | What may be shown is an initial part of the skills, of the allowed length; a negative limit drops from the end |
| `SkillsPrompt.BuildSkillsPrompt` | src/pyclaw/skills/prompt.py:103-174 | All descriptions if they fit, else the longest initial part in compact form under a warning with its true number |
| `SkillsPrompt.PromptFits` | src/pyclaw/skills/prompt.py:31-174 | The prompt stays within the limit once that is at least 150 and the two numbers have at most 75 digits |
| `XmlEscape.EscapeIsPerCharacter` | src/pyclaw/core/utils/xml.py:1-8 | The five replacements in a row do what one pass over the characters does |
| `XmlEscape.EscapedIsPlain` | src/pyclaw/core/utils/xml.py:1-8 | Escaped text holds no markup character |
| `XmlEscape.EscapeIsInjective` | src/pyclaw/core/utils/xml.py:1-8 | Different texts have different escapes |
| `XmlEscape.UnescapeInverts` | src/pyclaw/core/utils/xml.py:1-8 | Reading the entities back gives the text |
| `Base64Url.DecodeInvertsEncode` | src/pyclaw/channels/web/auth.py:14-22 | Decoding inverts encoding for all byte strings (section 5 of RFC 4648 without padding) |
| `Base64Url.EncodeIsInjective` | src/pyclaw/channels/web/auth.py:14-22 | Different byte strings have different encodings |
| `Base64Url.EncodedIsAlphabet` | src/pyclaw/channels/web/auth.py:14-15 | An encoded part holds alphabet characters only, no padding and no dot |
| `Base64Url.TestVectors` | src/pyclaw/channels/web/auth.py:14-15 | Helper: test vectors of section 10 of RFC 4648 and the two characters of the URL-safe alphabet |
| `WebToken.TokenSplits` | src/pyclaw/channels/web/auth.py:34-42 | A token splits into exactly its three parts |
| `WebToken.TokenRoundTrip` | src/pyclaw/channels/web/auth.py:25-68 | A token verifies as its user exactly under a secret with the same hash and up to its expiry, and is rejected otherwise |
| `WebToken.VerifiedIsSigned` | src/pyclaw/channels/web/auth.py:37-68 | Any text is verified as a user exactly when it has three parts, the last is the keyed hash of the first two, and the second names the user and has not expired |
| `SopDocument.StoredSopRoundTrip` | src/pyclaw/core/skill_graduation.py:16-47 | A stored procedure is parsed back into its stripped fields exactly when the name is in kebab case, the description is one line and the procedure is not blank |
| `SopDocument.ThreeLines` | src/pyclaw/core/sop_extraction.py:341-349 | Three joined lines come apart again |
| `SkillDocument.ExtractBetweenRulers` | src/pyclaw/skills/parser.py:21-31 | Text between two rulers is extracted exactly when it holds none |
| `SkillDocument.SafeDashes` | src/pyclaw/core/skill_graduation.py:59-59 | Quoting a description neither makes nor hides a ruler |
| `SkillDocument.FrontDashes` | src/pyclaw/core/skill_graduation.py:61-68 | The front matter holds a ruler exactly when one of its values does |
| `SkillDocument.FrontReads` | src/pyclaw/core/skill_graduation.py:61-68 | The front matter, line by line |
| `SkillDocument.SkillDocumentRoundTrip` | src/pyclaw/core/skill_graduation.py:50-77 | Front matter and body of a generated SKILL.md are recovered exactly when name, description, session key and time hold no three dashes in a row |
| `SkillDocument.GraduationCarriesOver` | src/pyclaw/core/skill_graduation.py:16-77 | All the way: a stored procedure survives storing, parsing, the generated file and the extraction from it exactly when its name is in kebab case, its description is one line, its procedure is not blank and no front-matter value holds three dashes in a row |
| `SkillDocument.KebabNameCanHoldRuler` | src/pyclaw/core/skill_graduation.py:13-77 | A stored procedure that is parsed back whole but whose file is cut inside its name, whenever it graduates |
| `FuzzyMatch.FuzzyScore` | web/src/lib/fuzzy.ts:7-41 | There is a match exactly when the query is a subsequence of the target, and its indices are increasing and pointwise no later than any other embedding's; the score is that of these indices |
| `FuzzyMatch.MatchIsWorth` | web/src/lib/fuzzy.ts:19-35 | A match earns one point, three more at the start of the target or two behind a separator, and two per match side by side before it |
| `FuzzyMatch.PrefixScore` | web/src/lib/fuzzy.ts:19-35 | A query of letters that begins the target scores the square of its length plus three, before the penalty |
| `FuzzyMatch.TakeKeepsBest` | web/src/lib/fuzzy.ts:19-35 | Taking the first possible position keeps the embedding the best one |
| `FuzzyMatch.SkipKeepsBest` | web/src/lib/fuzzy.ts:19-35 | Skipping a position that does not match keeps it the best one |

## Left out

- Gateway.StepKeeps: publish and delivery are unordered per copy; the order of messages inside one Redis channel, and reconnection back-off of the consumer, are not modelled.
- EventCodec.RebuildKeepsRouting: events are rebuilt as namespaces; the vendor's own event constructor is library behaviour, as are bytes and sets, which the serializer does not meet in message events.
- GatewayRouter.Cluster.Release: the caller's use of release at shutdown is not modelled, leaving workers are crashes.
- SessionObject.Session.GetBranch: asks for an acyclic tree, because on a cycle the source does not return.
- RunProgram.Runner.TryCompaction: an engine that succeeds leaves the tree alone while it works, as it is handed the messages only; one that fails may leave any tree behind. SessionObject.Session.TryCompaction has the general case.
- RunProgram.Runner.AnswerRefused: the wording of refusals is a parameter, so of two denials under one id it does not say whose text wins.
- RunProgram.Runner.RunStream: iterations see the clock, abort flag and deadline as given answers; token sums, logging, hook notifications, prompt assembly, and exceptions of hooks, stores and the id generator's unchecked fallback are not modelled.
- RunProgram.Runner.ToolPhase: the start, request and end events are compared per call id, not by argument text; truncation of outputs is part of the given output.
- ToolPhase.EachCallOnce: audit records carry name, id, tier, decision and decider, not tier source, server, user, role or backend.
- Approval.Table.CreatePending: pending entries are values in the table instead of shared objects; nobody replaces an entry while its hook waits.
- FeishuRouting.SessionsHaveKeys: chat and sender ids hold no colon.
- CuratorCycle.CuratorCycle.RunScan: which rows are stale and which of them graduate is given, as are the counts of uses behind it.
- CuratorReview.VerdictsAreCarriedOut: the file a promotion writes before the look at the lock, and the index entries removed, are not modelled.
- FeishuSessions.FeishuOriginator: application, sender and chat ids without a colon; the resolver of originators, which nothing ever sets, is not modelled.
- RunProgram.Runner.WebPhase: one phase; RunStream has the hook's rulings as given.
- Approval.Table.SetDecision: the web queue's second table of raw replies, which no hook reads, is not modelled.
- ApprovalHooks.FeishuToolApprovalHook.WaitForUserDecision: card layouts, the countdown's own patches, and a closed task manager refusing the countdown are not modelled.
- ChatLane.RunConserves: cancellation, shutdown of the task manager and reset of the queue are not modelled; the closed flag is.
- ChatQueue.TaskManager.Spawn: ids are numbers instead of their zero-padded text.
- CuratorCycle.CuratorCycle.RunReview: the rows selected for review, the model's decisions and the success of promotions are given; parsing of the model's answer is not modelled.
- AdminGuard.AnAdminRemains: expiry of stored profiles, argument parsing and replies are not modelled; commands run one after the other, AdminRace has them interleaved.
- ProfileStore.RedisJsonStore.ListUsers: a key that expires between scan and read is not modelled.
- AdminRace.EmptyingNeedsOverlap: the scan inside the check is one step.
- PromptBudget.DerivedReserveFillsWindow: the ratio is a real number, rounding of floating point is not modelled.
- SkillsPrompt.BuildSkillsPrompt: the skills come in order of name, the two introductions are parameters without markup, and home paths are already shortened.
- FuzzyMatch.FuzzyScore: the penalty is a real number and characters are not split into UTF-16 units.
- The steering commands, nudge and memory hooks, context assembly and token estimation.
- The lock manager, storage engines, full-text search, and the LLM-enriched SKILL.md.
- Web and Feishu user interfaces, command-line tools, settings loading, skill installation, MCP process handling.
