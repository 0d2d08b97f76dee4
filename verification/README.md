# Agent harness: a verified model

This project models the server of a multi-tenant ticket assistant in Dafny and
proves properties of the model. A language model drives a loop that calls ticket
tools; destructive tools wait for a human; conversations, tickets and sessions are
persisted for many tenants in shared tables.

Four parts are modelled, each as the functions that say what the code does and,
where the code updates things in place, as classes and loops proved to do that.

* **The agent** (`AgentLoop`, `AgentService` and the theorem files on them). The
  language model is an arbitrary function from the number of earlier attempts and
  the request to a reply or a failure; the clock and the id generator are arbitrary
  too. A statement for every environment is thus a statement for every behaviour.
  `AgentLoop` gives the reference semantics of a request; the methods of
  `AgentServices.AgentService`, with the loops, buffers and rows of the source, are
  proved to compute it; the theorem files prove what it promises over whole runs.
  `Story` and `Reports` tell what the model is shown and replies, what that costs and
  what a response says of it, apart from the bookkeeping of the loop.
* **Tenancy** (`TenantScope`, `ScopedEffects`, `TenantSimulation`, `TableLookup`,
  `Tickets`, `TicketLaws`, `Tools`, `TicketToolLaws`, `Conversations`,
  `NewConversations`, `ConversationRuns`, `Isolation`, `IsolationRuns`). Every database
  operation is rewritten into the active tenant. The shared table behaves as private ones.
* **Refresh tokens** (`RefreshTokens`, `TokenRace`). The token store run alone, and
  as steps of concurrent requests.
* **Wire formats** (`AnthropicWire`, `OpenAiWire`, `WirePairing`, `WireSafety`).

Assumptions appear as `requires` clauses, only where they are needed:
`FreshModel` (call ids in a reply are distinct and unknown to the request),
`UnflaggedToolsOnlyRead` (a tool flagged neither mutating nor approval-needing does
not write; proved for the ticket tools), `FreshSecrets`, `Unused` and
`NoClashes` (generated ids are not another tenant's row ids), `Inverse` (JSON parsing
inverts JSON printing).

Where the code and its documentation disagree, the model follows the code.

* `prisma/schema.prisma:104-107` says every stored tool call stays paired with its
  result. A chat does not look at the status, so on a paused conversation it can
  complete with the paused call unanswered (`PendingCalls.ChatStrandsAPausedCall`).
  The exact conditions are `PendingCalls.CompletedIsPairedExactly` for pairing by id
  and `HistoryGrammar.HistoriesParse` for the contiguous form of a history.
* `src/agent/tools/ticket-tools.ts:14-15` says mutating tools are idempotent through
  the call id. No code does that; an approval that runs a tool and then throws can be
  repeated, which `GuardedTools.GuardedCallRunsOnce` counts and
  `GuardedTools.RunsAgainExactly` characterises.

## Model

| member | source | states |
|---|---|---|
| `PendingCalls.PendingIsOutstanding` | src/agent/agent.service.ts:146-153 | over every run with new ids, the pending calls recomputed from the stored history equal, in order, the approvals outstanding, where a returned chat adds its pause, a returned approval replaces all by its pause, and any other request changes nothing |
| `LlmTypes.PendingExactly` | src/agent/agent.service.ts:146-153 | a call is pending if and only if an assistant message makes it and no tool message answers its id; what other messages carry does not count |
| `PendingCalls.ServePending` | src/agent/agent.service.ts:137-247 | the one-request step of that invariant, for chats and approvals |
| `PendingCalls.LoopPending` | src/agent/agent.service.ts:267-423 | whatever the loop does before it ends, it adds to the pending calls exactly those its response awaits |
| `PendingCalls.FreshPendingAfterBlock` | src/agent/agent.service.ts:337-393 | with new ids, a batch leaves exactly its approval-needing calls pending, after the earlier ones |
| `PendingCalls.PendingAfterBlock` | src/agent/agent.service.ts:344-383 | for any ids, whatever a batch leaves pending was pending before or needs approval |
| `PendingCalls.ApprovalClears` | src/agent/agent.service.ts:207-237 | for any ids, after an approval has answered its calls nothing is pending, and the answered ids are the old ones and the pending ones |
| `PendingCalls.CompletedIsPairedExactly` | prisma/schema.prisma:104-107 | a chat that completes leaves every stored call paired with an answer if and only if nothing was pending before it |
| `PendingCalls.ChatStrandsAPausedCall` | src/agent/agent.service.ts:97-125 | a concrete paused conversation that a chat completes with its call still unanswered |
| `PendingCalls.LoopStatus` | src/agent/agent.service.ts:385-422 | a loop that ends is PAUSED if and only if its response awaits approval, and then it awaits at least one call |
| `ConversationRuns.EveryConversationKeepsItsPending` | src/agent/agent.service.ts:97-247 | over every interleaving of calls by any tenants on any conversations, each stored history only grows, and its pending calls are exactly what the requests on that conversation left outstanding |
| `ConversationRuns.CallOnConversation` | src/agent/agent.service.ts:97-125 | one call serves its request on the stored conversation it names, always persists a request that returns, changes nothing if it refuses, and leaves every other stored conversation as it was |
| `ConversationRuns.GuardedCallRunsOnceOn` | src/agent/agent.service.ts:207-237 | with any calls on other conversations in between, the calls on one conversation dispatch a guarded call exactly once per approval that did so and returned, of which there is at most one, and once per approval that did so and threw |
| `ConversationRuns.AnsweredNeverRunsOn` | src/agent/agent.service.ts:146-153 | for any ids, once a call of a conversation is answered, no later call on that conversation runs a guarded tool for it, whatever comes in between |
| `ConversationRuns.ReplayIsRefusedOn` | src/agent/agent.service.ts:155-175 | for any ids, the decisions of a returned approval are refused without effect on that conversation after any calls by anyone |
| `ConversationRuns.StatusOn` | src/agent/conversation.service.ts:47-80 | the stored status of a conversation is a function of the last response on it, whatever comes in between |
| `Approvals.AcceptedExactly` | src/agent/agent.service.ts:155-205 | an approval is accepted if and only if something is pending, only guarded tools are pending, and the decisions are distinct and on pending calls; a pending call is run if and only if a decision approves its id |
| `Approvals.RefusalExactly` | src/agent/agent.service.ts:155-185 | a refusal names its true reason: nothing pending; or the first decision that repeats an earlier one or is on no pending call, told apart; or a pending call outside the approval flow |
| `Approvals.EveryPauseRecovers` | src/agent/agent.service.ts:128-136 | for any ids, in every state reached from one whose pending calls are guarded, each duplicate-free set of decisions on pending calls is accepted, and the "not part of the approval flow" refusal never occurs |
| `Approvals.PausedAccepts` | src/agent/agent.service.ts:195-205 | with new ids, a conversation left PAUSED accepts exactly the duplicate-free decisions on its pending calls, the empty list included, and denies whatever is not approved |
| `Approvals.PausedAwaits` | src/agent/agent.service.ts:385-405 | over every run with new ids, a PAUSED conversation has something pending |
| `Approvals.CollectAccepts` | src/agent/agent.service.ts:161-175 | reading the decisions succeeds if and only if they are distinct, new, and on pending calls |
| `Approvals.CollectMaps` | src/agent/agent.service.ts:162-175 | the decision table is exactly the lookup table of the decisions |
| `Approvals.UndecidableExactly` | src/agent/agent.service.ts:177-185 | the check passes if and only if every pending call names a tool that needs approval |
| `Approvals.DecisionOrderIrrelevant` | src/agent/agent.service.ts:162-205 | permuted decisions are both refused without effect, or both accepted with the same response, history, store, events and model use |
| `Approvals.ServeAppends` | src/agent/agent.service.ts:262-266 | one request keeps the stored history as a prefix; a request that does not return leaves history and status alone; a returned one is PAUSED if and only if it awaits approval, else COMPLETED |
| `Approvals.StatusAutomaton` | src/agent/conversation.service.ts:47-80 | over every run the history only grows and the status is a function of the last response: ACTIVE if and only if none has returned |
| `Approvals.LoopAppends` | src/agent/agent.service.ts:337-383 | the loop only appends to the history |
| `Approvals.ApprovalAnswers` | src/agent/agent.service.ts:207-237 | a returned approval has answered every call that was pending |
| `Approvals.ReplayIsRefused` | src/agent/agent.service.ts:155-175 | for any ids, resubmitting the decisions of a returned approval, after any further requests, is refused and changes nothing |
| `GuardedTools.ServeIsPermitted` | src/agent/agent.service.ts:197-211 | whatever the model does, a guarded tool runs only in an approval, for a call pending in the stored history, with an approving decision in that very request; and in an approval, or with nothing pending, every model request has all its calls answered |
| `GuardedTools.LoopAdds` | src/agent/agent.service.ts:348-383 | the loop itself never runs a guarded tool, and keeps every request free of unanswered calls if it starts without any |
| `GuardedTools.GuardedCallRunsOnce` | src/agent/agent.service.ts:207-237 | over every run with new ids, a guarded call is dispatched exactly once for each approval that did so and returned, and once for each that did so and threw before persisting; of the former there is at most one, and none once the call is answered |
| `GuardedTools.RunsAgainExactly` | src/agent/agent.service.ts:207-247 | for any ids, repeating an approval that ran a guarded call runs it again if and only if the first one threw, and then exactly as often |
| `GuardedTools.ApproveRunsExactly` | src/agent/agent.service.ts:155-237 | how often an approval dispatches a guarded call is fixed by the stored history, the decisions and the validators, not by tickets, clock or model |
| `GuardedTools.LostApprovalsRunAgain` | src/agent/agent.service.ts:530-532 | a run that meets that bound: three approvals of one paused call with valid arguments, two of them lost to a model that is down, execute its tool three times on the tickets |
| `GuardedTools.AnsweredNeverRuns` | src/agent/agent.service.ts:146-153 | once a call is answered, a denied one included, no guarded tool runs for its id in any further request, for any ids |
| `GuardedTools.ServeRuns` | src/agent/agent.service.ts:137-247 | one request runs a guarded call at most once, only if it was pending |
| `Audit.ResponsesAudit` | src/agent/agent.service.ts:207-237 | every returned request reports exactly what replaying its answered calls one by one from the initial tickets gives: each result, the final tickets, the appended tool messages; then the awaited calls |
| `Reports.ReportsExactly` | src/agent/agent.service.ts:220-236 | every returned response, entry by entry: the i-th report has the id and name of the i-th call, says success exactly when the i-th replayed result is one, and shows its data or else an object of its code and message; the i-th appended tool message answers that call with the same value, printed |
| `Reports.RejectionIsReported` | src/agent/agent.service.ts:456-477 | a read-only call whose promise rejects does not end the request: it is reported in its place, without success, as an internal error, and so is its tool message |
| `Reports.ReplayAt` | src/agent/agent.service.ts:426-480 | each replayed result is what its call settles as on the tickets the earlier ones leave, a rejection counting as an unexpected internal error |
| `Reports.DeniedIsReported` | src/agent/agent.service.ts:210-230 | a pending call that is not approved is reported in its place without success and with the code REJECTED_BY_USER |
| `Reports.DecisionsAreAnnounced` | src/agent/agent.service.ts:220-223 | a returned approval announces, in order, one decision per pending call: granted for the approved ones, denied for all others |
| `Audit.LoopReports` | src/agent/agent.service.ts:366-404 | what the loop accumulates is the replay of the calls it answered, and its response reports it |
| `AgentShape.DeniedAreNoOps` | src/agent/agent.service.ts:210-218 | in the audit reference, denied jobs change neither the tickets nor any other result, and each is answered as denied |
| `AgentShape.AnswerJobsIsReplay` | src/agent/agent.service.ts:207-237 | answering calls that none stops is, in every field of the state, their sequential replay |
| `AgentShape.SafeIsReplay` | src/agent/agent.service.ts:352-383 | a batch answers its read-only calls and then its mutating ones, as one sequential replay |
| `AgentShape.SafeShape` | src/agent/agent.service.ts:337-383 | what that leaves, part by part: the block appended to the history, calls and results accumulated, tickets, events |
| `AgentShape.BlockFacts` | src/agent/agent.service.ts:337-383 | the block of a batch holds all calls of the reply and answers exactly the safe ones |
| `AgentShape.PartitionMembers` | src/agent/agent.service.ts:348-361 | the three buckets partition the batch by the flags of each tool; unknown tools are read-only |
| `AgentShape.ReadOnlyNeverStops` | src/agent/agent.service.ts:433-479 | a rejecting promise in the read-only bucket is answered, never thrown |
| `AgentShape.StopsExactly` | src/agent/agent.service.ts:366-383 | answering stops only outside the read-only bucket, at a call whose promise rejects, after the earlier ones are answered as their replay says; that call is listed and reported as run, and has no result |
| `AgentShape.ReplyComesFromModel` | src/agent/agent.service.ts:508-516 | a reply of the retrying call is a reply of the model to that very request |
| `HistoryGrammar.HistoriesParse` | src/agent/agent.service.ts:338-393 | over every run with new ids from a history in the grammar (user messages, and assistant messages each followed contiguously by one answer per call, open only at the end for exactly the pending calls), the reached history is in it if and only if no chat returned while something was pending; otherwise it is not, open for anything; while it is, the status is PAUSED if and only if something is pending |
| `HistoryGrammar.ChatKeepsGrammarExactly` | src/agent/agent.service.ts:110-115 | a chat that returns keeps a history in the grammar if and only if nothing was pending before it |
| `HistoryGrammar.StrandedForGood` | src/agent/agent.service.ts:110-115 | for any ids, after a chat that returned while something was pending no history of any later run is in the grammar, open for anything, even once every call is answered |
| `HistoryGrammar.UserNeedsNothingPending` | src/agent/agent.service.ts:110-115 | for any ids, a history that goes on with a user message is in the grammar only if nothing was pending at that message |
| `HistoryGrammar.EmptyHistoryParses` | src/agent/conversation.service.ts:47-64 | a new conversation starts in that grammar |
| `HistoryGrammar.LoopGrammar` | src/agent/agent.service.ts:337-393 | for any ids, the loop extends a complete history to one open for exactly the calls it awaits |
| `HistoryGrammar.BlockIsTurn` | src/agent/agent.service.ts:337-383 | for any ids, a batch is one turn whose answers and awaited calls together are a permutation of its calls |
| `HistoryGrammar.CompleteLast` | src/agent/agent.service.ts:207-237 | answering the open calls of the last turn completes the history |
| `Confluence.EveryOrderIsSequential` | src/agent/agent.service.ts:426-480 | for every completion order of the concurrent read-only calls, messages, accumulators and tickets are those of running them in list order |
| `Confluence.SettledAlone` | src/agent/agent.service.ts:433-439 | each promise settles as if its call ran alone, and the tickets stay, for tools that only read |
| `Budgets.RetryIsFirstSuccess` | src/agent/agent.service.ts:500-532 | retrying returns the first success within the limit after exactly that many identical requests and the doubling sleep between them; if all fail it rethrows the last error; with no attempt allowed, a fixed error |
| `Budgets.SucceedsOrAllFail` | src/agent/agent.service.ts:508-528 | one of those cases always applies |
| `Budgets.RunWithinBudget` | src/agent/agent.service.ts:280-311 | a run of c chats and k approvals asks the model at most c·M + k·max(0, M−1) times and attempts it at most the retry limit times that |
| `Budgets.ServeAsks` | src/agent/agent.service.ts:187-193 | one chat asks at most M times, one approval at most M − 1 times |
| `Budgets.ServeUsage` | src/agent/agent.service.ts:482-493 | the tokens a response reports are none, or at most the token budget minus one plus the largest reply |
| `Story.ResponseCountsReplies` | src/agent/agent.service.ts:310-334 | the usage of every returned response is componentwise the sum over the replies of the model in that request, and its iterations are the times it was asked, plus one for an approval |
| `Story.SpentWithinBudget` | src/agent/agent.service.ts:280-311 | the tokens the model really used in a request, returned or not, are none or at most the token budget minus one plus the largest reply |
| `Story.TokensExceededExactly` | src/agent/agent.service.ts:482-493 | an iteration ends for its tokens if and only if the iteration limit is not reached and the tokens used so far are at least the budget; it reports them |
| `Story.ResponseIsExplained` | src/agent/agent.service.ts:320-334 | a response carries the content and stop reason of the last reply if that ends the turn, the guarded calls of the last reply if there are any, and else the first limit reached of iterations, real tokens and time |
| `Story.CrashIsExplained` | src/agent/agent.service.ts:267-423 | a request that throws keeps its conversation, and throws what the last attempt of the model failed with, or else what a mutating call of the last reply, or a decided call of an approval, rejected with |
| `Story.LoopExplained` | src/agent/agent.service.ts:280-422 | the same for the loop, aborted ends and the wall clock included |
| `Story.LoopSpends` | src/agent/agent.service.ts:301-311 | however a loop ends, it has counted exactly the tokens of its replies and one iteration per ask |
| `Story.ServeTalks` | src/agent/agent.service.ts:301-318 | what a request asks of the model, in order: every time the system text, the whole history of that time and all tools, followed by the iteration event of the reply |
| `Story.LoopChained` | src/agent/agent.service.ts:337-383 | each history the model is shown is the one before, its own reply to that, and tool messages |
| `Story.ChatTells` | src/agent/agent.service.ts:110-122 | a chat first shows the model the stored history and the text of the user |
| `Budgets.LoopUsage` | src/agent/agent.service.ts:280-311 | tokens are checked before each ask, so only the last reply can pass the budget |
| `Budgets.IterateMeters` | src/agent/agent.service.ts:280-311 | an iteration either stops on the budget without asking, or asks once, attempts within the retry limit and uses one iteration, whatever the model answers |
| `Budgets.IterateTokens` | src/agent/agent.service.ts:482-493 | an iteration adds at most one reply to less than the token budget |
| `Budgets.LoopsEndInTime` | src/agent/agent.service.ts:494-496 | with a positive wall-clock budget, a loop whose own iterations cost at most C ms ends within the budget minus one plus C ms of its start, however far apart requests lie |
| `AgentLoop.IterateAdvances` | src/agent/agent.service.ts:280-301 | an iteration that continues has used exactly one iteration: the termination measure of the loop |
| `AgentServices.AgentService.Chat` | src/agent/agent.service.ts:97-125 | loads or creates the conversation, runs the loop, and leaves exactly the world and result the reference semantics gives |
| `AgentServices.AgentService.Approve` | src/agent/agent.service.ts:137-247 | checks the decisions, answers every pending call, resumes the loop, and leaves exactly the world and result the reference semantics gives |
| `AgentServices.AgentService.Loop` | src/agent/agent.service.ts:280-422 | the while loop ends as the recursive reference loop does |
| `AgentServices.AgentService.IterateOnce` | src/agent/agent.service.ts:280-405 | one pass of the loop body is one reference iteration |
| `AgentServices.AgentService.ExecuteBatch` | src/agent/agent.service.ts:337-405 | the batch of one reply: safe calls run, then a pause or an error ends the request |
| `AgentServices.AgentService.ExecuteReadOnly` | src/agent/agent.service.ts:426-480 | running the read-only calls in any completion order and collecting by index is the sequential reference |
| `AgentServices.AgentService.SettleAll` | src/agent/agent.service.ts:433-439 | the promises settle, each at the index of its call, as running the calls one by one in completion order makes them |
| `AgentServices.AgentService.CollectAll` | src/agent/agent.service.ts:441-479 | the collecting loop records the settled promises in list order, a rejected one as an internal error |
| `AgentServices.AgentService.ExecuteInOrder` | src/agent/agent.service.ts:366-383 | mutating calls and decided calls run in order, the first rejection stops everything |
| `AgentServices.AgentService.Partition` | src/agent/agent.service.ts:348-361 | the pushing loop yields the three buckets in order |
| `AgentServices.AgentService.CallLlmWithRetry` | src/agent/agent.service.ts:500-532 | the counting loop is the recursive retry, with its attempts and sleep |
| `AgentServices.AgentService.CheckBudgetNow` | src/agent/agent.service.ts:482-498 | the first exceeded limit, in order; the clock is read only if the others hold |
| `AgentServices.AgentService.CollectDecisions` | src/agent/agent.service.ts:161-175 | the filling loop accepts and refuses as the reference, with the first reason |
| `AgentServices.AgentService.FirstUndecidable` | src/agent/agent.service.ts:177-185 | the first pending call outside the approval flow |
| `AgentServices.AgentService.CheckDecisions` | src/agent/agent.service.ts:155-205 | all checks of an approval, in order |
| `AgentServices.AgentService.PersistRow` | src/agent/agent.service.ts:393-404 | the row is updated before the response is returned; a failing update replaces the response |
| `Conversations.ConversationService.Find` | src/agent/conversation.service.ts:36-44 | finds a conversation of the active tenant only, and changes nothing |
| `Conversations.ConversationService.Create` | src/agent/conversation.service.ts:47-64 | adds an ACTIVE row with the given history under the active tenant |
| `Conversations.ConversationService.UpdateMessages` | src/agent/conversation.service.ts:67-80 | replaces history and status of the tenant's row |
| `NewConversations.CreatesExactly` | src/agent/conversation.service.ts:47-64 | a created conversation is ACTIVE, holds exactly the messages given, belongs to the acting tenant and user, and stands behind all other rows |
| `NewConversations.OpensExactly` | src/agent/conversation.service.ts:47-64 | opening a conversation draws one id and stores the row under it, or fails if the id is taken, and touches nothing else |
| `NewConversations.FindsAndUpdatesExactly` | src/agent/conversation.service.ts:36-80 | finding gives the row of that id of the tenant, updating replaces its history and the status given and keeps its user, or fails without change if there is none |
| `NewConversations.NewChatKeepsHistory` | src/agent/agent.service.ts:103-124 | a chat that names no conversation: its new row starts with the history sent and the text of the user, the model is first asked with exactly those, and if the request throws the row keeps just the history sent |
| `NewConversations.ContinuedChatKeepsHistory` | src/agent/conversation.service.ts:85-94 | a chat that names a conversation: history sent along is ignored, the model is first asked with the stored one and the text of the user, a stored value that is not an array counts as no history, and the row ends with an array that starts with those messages, or is untouched |
| `NewConversations.FirstQuestion` | src/agent/agent.service.ts:110-122 | the first thing any chat asks of the model: its system text or the default one, the stored history and the text of the user, all tools |
| `NewConversations.CallsNeedTenant` | src/tenancy/tenant-scoped.prisma.ts:97-102 | without a tenant no call reaches the tables, the model or a tool |
| `TenantSimulation.InterleavingIsPrivate` | src/tenancy/tenant-scoped.prisma.ts:17-29 | under any interleaving of any callers' operations on the shared table, with or without a tenant and with any conditions on any column, a tenant's rows and every answer it gets are those of its own operations, alone, on a private table |
| `TenantSimulation.ScopedIsPrivate` | src/tenancy/tenant-scoped.prisma.ts:30-62 | one scoped operation on the shared table is the private operation of its tenant, and no change for anyone else |
| `TenantSimulation.CreateIsPrivateExactlyWithoutClash` | src/tenancy/tenant-scoped.prisma.ts:41-43 | a creation answers as on the private table if and only if its generated id is not a row of another tenant |
| `TenantSimulation.CallerTenantIgnored` | src/tenancy/tenant-scoped.prisma.ts:21-23 | whatever tenantId a caller puts into where or create data changes nothing |
| `TenantScope.ApplyTenantScope` | src/tenancy/tenant-scoped.prisma.ts:30-62 | overwrites the arguments in place so that they denote the scoped operation, and nothing else; arguments of the platform's own model stay |
| `TenantScope.ScopedClient.AllOperations` | src/tenancy/tenant-scoped.prisma.ts:82-106 | the hook: an override goes before the tenant of the request; without a tenant nothing runs, otherwise the scoped operation does; the platform's own model is not scoped |
| `ScopedEffects.ScopedReads` | src/tenancy/tenant-scoped.prisma.ts:30-62 | a tenant is shown exactly its own rows that meet its condition, in table order |
| `ScopedEffects.ScopedWritesMany` | src/tenancy/tenant-scoped.prisma.ts:30-62 | writing many changes or removes all of the tenant's rows that meet the condition and no other, and counts them |
| `ScopedEffects.ScopedWritesFirst` | src/tenancy/tenant-scoped.prisma.ts:47-62 | writing one changes or removes the first such row alone; without one nothing is found, and an upsert creates |
| `ScopedEffects.ScopedCreates` | src/tenancy/tenant-scoped.prisma.ts:41-51 | every payload becomes a row of the tenant, whatever tenant it names, exactly when all ids are new and distinct; else nothing does |
| `Isolation.CallsAgree` | src/agent/agent.service.ts:267-423 | noninterference: for every model, clock and call, two worlds a tenant cannot tell apart give it the same result, stay indistinguishable to it, and keep all other tenants' tickets and conversations |
| `IsolationRuns.RunsAgree` | src/agent/agent.service.ts:97-247 | over whole runs: whatever others do between a tenant's calls, differently in each of two worlds it cannot tell apart, it is answered the same and still cannot tell them apart |
| `IsolationRuns.OthersKeepMine` | src/tenancy/tenant-scoped.prisma.ts:57-60 | every call of another tenant is such activity |
| `Isolation.TicketAgentIsIsolated` | src/agent/tools/ticket-tools.ts:10-16 | the same for the application's own tools, without further assumption on them |
| `Isolation.TicketToolsIsolated` | src/agent/tools/ticket-tools.ts:30-142 | the five ticket tools are isolated between tenants, and the unflagged ones only read |
| `Isolation.ForeignTicketIsNotFound` | src/agent/tools/ticket-tools.ts:71-134 | for all arguments the tool accepts, reading, updating or deleting a ticket is NOT_FOUND, without change, if and only if the tenant has no ticket of that id |
| `Isolation.ForeignConversationIsNotFound` | src/agent/conversation.service.ts:31-44 | a chat or approval on a conversation is "not found", with nothing asked, run or stored, if and only if the tenant has no such conversation, whatever history the caller sends along |
| `Isolation.ScopedAgree` | src/tenancy/tenant-scoped.prisma.ts:57-60 | an operation of a tenant on two tables it cannot tell apart: same answer, still indistinguishable, others untouched |
| `Isolation.ServeAgrees` | src/agent/agent.service.ts:137-247 | a request on sessions that differ only in other tenants' tickets gives the same result |
| `TicketLaws.CreateThenFind` | src/tickets/tickets.service.ts:18-22 | a created ticket is OPEN, owned by its tenant, found by id afterwards; every other lookup of every tenant is unchanged |
| `TicketLaws.UpdateThenFind` | src/tickets/tickets.service.ts:41-47 | an update changes exactly the provided fields of the tenant's ticket and returns it as then found, or finds nothing and changes nothing; other lookups are unchanged |
| `TicketLaws.RemoveThenFind` | src/tickets/tickets.service.ts:49-52 | a removal returns the ticket as it was found, after which it is not found; other lookups are unchanged |
| `TicketLaws.ListsExactly` | src/tickets/tickets.service.ts:24-29 | listing gives exactly the tenant's tickets of the asked status, each once, newest first |
| `TicketLaws.FindsOwn` | src/tickets/tickets.service.ts:31-39 | looking up finds the tenant's own ticket of that id and nothing else |
| `Tickets.TicketsService.Create` | src/tickets/tickets.service.ts:18-22 | adds the ticket through the scoped client, drawing one id |
| `Tickets.TicketsService.FindAll` | src/tickets/tickets.service.ts:24-29 | lists through the scoped client and changes nothing |
| `Tickets.TicketsService.FindOne` | src/tickets/tickets.service.ts:31-39 | looks up through the scoped client and changes nothing |
| `Tickets.TicketsService.Update` | src/tickets/tickets.service.ts:41-47 | looks up first, then updates through the scoped client |
| `Tickets.TicketsService.Remove` | src/tickets/tickets.service.ts:49-52 | looks up first, then deletes through the scoped client |
| `Tools.TruncateResult` | src/agent/tools/tool-registry.service.ts:7-10 | data comes back unchanged if and only if it is short or already continues with its own note; long data is its first 4000 characters and then the note |
| `Tools.ToolRegistry.Register` | src/agent/tools/tool-registry.service.ts:21-27 | a later tool replaces an earlier one of its name and keeps its place |
| `Tools.ToolRegistry.GetTool` | src/agent/tools/tool-registry.service.ts:37-39 | a tool is found if and only if its name is registered, and it carries that name |
| `Tools.ToolRegistry.GetDefinitions` | src/agent/tools/tool-registry.service.ts:29-35 | one definition per registered name, in order of first registration |
| `Tools.RegisterTools` | src/agent/tools/ticket-tools.ts:138-140 | the registration loop adds exactly the five ticket tools to whatever is registered |
| `TicketToolLaws.FlagsExactly` | src/agent/tools/ticket-tools.ts:32-136 | of the five tools exactly delete_ticket needs approval and exactly create_ticket and update_ticket are mutating without it |
| `TicketToolLaws.TicketsGoByApproval` | src/agent/tools/ticket-tools.ts:115-119 | with the tools of the application, whatever the model does, a ticket a request makes go was named by a pending delete_ticket call that this very request, an approval, approves |
| `TicketToolLaws.RunsDeleteByApproval` | src/agent/agent.service.ts:348-361 | the same over every run of requests |
| `TicketToolLaws.AcceptsExactly` | src/agent/tools/ticket-tools.ts:37-122 | the arguments each tool accepts, exactly |
| `TicketToolLaws.InputIsCut` | src/agent/tools/ticket-tools.ts:37-122 | what a tool is handed: its accepted arguments, cut down to the keys of its schema |
| `TicketToolLaws.CreateTicketTool` | src/agent/tools/ticket-tools.ts:40-45 | creating through the tool stores an open ticket with the title sent, for the tenant, and shows it |
| `TicketToolLaws.GetTicketToolLaw` | src/agent/tools/ticket-tools.ts:71-82 | reading through the tool shows the ticket of that id of the tenant, or is NOT_FOUND |
| `TicketToolLaws.UpdateTicketTool` | src/agent/tools/ticket-tools.ts:94-113 | updating through the tool changes exactly the fields sent, to what was sent, and shows the result, or is NOT_FOUND |
| `TicketToolLaws.DeleteTicketTool` | src/agent/tools/ticket-tools.ts:123-134 | deleting through the tool shows the ticket as it was, after which it is gone, or is NOT_FOUND; all other tickets stay |
| `TicketToolLaws.ListTicketsTool` | src/agent/tools/ticket-tools.ts:56-62 | listing through the tool shows the tickets of the tenant with the status sent, or all, newest first |
| `TicketToolLaws.ExecuteExactly` | src/agent/tools/tool-registry.service.ts:45-90 | every way a dispatch can go, with its code, its effect and what is shown of its data |
| `TicketToolLaws.WithoutTenant` | src/tickets/tickets.service.ts:18-52 | without a tenant every ticket call is refused and no ticket changes |
| `TicketToolLaws.ToolsNeedTenant` | src/agent/tools/ticket-tools.ts:30-142 | without a tenant creating and listing throw, the other tools report an internal error, all with the message of the scoping, and no ticket is touched |
| `TicketToolLaws.NoteCounts` | src/agent/tools/tool-registry.service.ts:7-10 | the note of a cut result spells out, as a decimal numeral, how long the result was |
| `TokenRace.SingleUse` | src/auth/refresh-tokens.service.ts:33-57 | over every interleaving of issue, scan, check, delete and revoke-all steps with fresh secrets, a token is accepted at most once, only if it was issued to that user and unexpired at its check, and never when a revocation of its user came after its issue |
| `TokenRace.RunKeepsInv` | src/auth/refresh-tokens.service.ts:20-65 | over every interleaving, an issued token is in the table if and only if nothing has used or revoked it |
| `TokenRace.RaceHasOneWinner` | src/auth/refresh-tokens.service.ts:55-65 | of two requests that both passed the check with one live token, the first to delete is accepted and the other finds no row |
| `TokenRace.UninterruptedIsConsume` | src/auth/refresh-tokens.service.ts:33-57 | the three steps of a request with nothing in between are consume run alone |
| `TokenRace.AcceptedAtMostIssued` | src/auth/refresh-tokens.service.ts:20-57 | over every interleaving, fresh secrets or not, a secret is accepted at most as often as it was issued, counting what is still in the table |
| `TokenRace.SharedSecretIsUsedTwice` | src/auth/refresh-tokens.service.ts:21-21 | a concrete run with one secret issued twice in which it is accepted twice: single use rests on fresh secrets |
| `TokenRace.LogoutLeavesExactlyLaterTokens` | src/auth/auth.service.ts:61-69 | over every interleaving, any token of a user in the table after a revoke-all was issued after it, and the user holds none if and only if all those have been used or revoked |
| `TokenRace.RefreshOutlivesLogout` | src/auth/auth.service.ts:56-59 | a concrete interleaving: a refresh deletes its token, a logout revokes everything, the refresh issues, and the user holds a token |
| `TokenRace.IssuedAreFresh` | src/auth/refresh-tokens.service.ts:20-27 | issued tokens come from issue steps, and fresh secrets make them distinct |
| `RefreshTokens.ConsumeExactly` | src/auth/refresh-tokens.service.ts:33-57 | alone, a token is accepted for a user if and only if that user holds it unexpired; then the user holds one token less and a replay is refused |
| `RefreshTokens.FirstMatchFacts` | src/auth/refresh-tokens.service.ts:41-48 | the scan finds an owned matching row if there is one |
| `RefreshTokens.RefreshTokensService.Issue` | src/auth/refresh-tokens.service.ts:20-27 | stores one row for the user and returns the token; the user holds one more |
| `RefreshTokens.RefreshTokensService.Consume` | src/auth/refresh-tokens.service.ts:33-57 | the scanning loop with its break consumes as specified; a matching row goes whether expired or not |
| `RefreshTokens.RefreshTokensService.DeleteById` | src/auth/refresh-tokens.service.ts:63-65 | deletes exactly the row, and fails if it is missing |
| `RefreshTokens.RefreshTokensService.RevokeAllForUser` | src/auth/refresh-tokens.service.ts:59-61 | removes the rows of the user, who is left with no token |
| `RefreshTokens.AuthService.Refresh` | src/auth/auth.service.ts:52-59 | a successful refresh trades the token for a new one of the same user, who holds as many as before; a failed one issues nothing |
| `RefreshTokens.AuthService.Logout` | src/auth/auth.service.ts:61-69 | a logout with a good token leaves its user with none; with any other it only drops an expired match |
| `RefreshTokens.AuthService.IssueTokens` | src/auth/auth.service.ts:71-90 | issues one token to a known user, none to an unknown one |
| `AnthropicWire.RoundTripExactly` | src/llm/anthropic-llm.provider.ts:40-53 | decoding an encoded assistant message gives its content and call ids, and its calls if and only if none has null arguments |
| `AnthropicWire.ReencodeIsNormalForm` | src/llm/anthropic-llm.provider.ts:81-95 | re-encoding a completion keeps all the loop sees, is idempotent, and is the identity exactly on normal forms: at most one non-empty leading text block, then tool uses with input |
| `AnthropicWire.EncodingKeepsPairs` | src/llm/anthropic-llm.provider.ts:67-100 | encoding keeps the ordered ids of calls and of answers |
| `AnthropicWire.BatchExactly` | src/llm/anthropic-llm.provider.ts:103-116 | a completion makes the loop run tools if and only if its stop reason is tool_use and it carries a tool use |
| `AnthropicWire.HistoryIsRead` | src/llm/anthropic-llm.provider.ts:67-100 | a reader written apart from the encoding sees, of every encoded history, whose each message is, its whole text and which call it answers |
| `AnthropicWire.DecodeConcat` | src/llm/anthropic-llm.provider.ts:40-53 | decoding is blockwise: calls in order, texts joined by a line break |
| `AnthropicWire.StopReasonsExactly` | src/llm/anthropic-llm.provider.ts:103-116 | what each stop reason means, on both sides, and that usage is passed on |
| `AnthropicWire.ToAnthropicMessage` | src/llm/anthropic-llm.provider.ts:67-100 | the block-pushing loop is the encoding |
| `OpenAiWire.RoundTripExactly` | src/llm/openai-compatible.provider.ts:91-114 | decoding an encoded assistant message gives its content and call ids, and its calls if and only if all arguments are objects or arrays |
| `OpenAiWire.ReencodeIsNormalFormExactly` | src/llm/openai-compatible.provider.ts:131-144 | re-encoding keeps all the loop sees, and is idempotent, if and only if no call's arguments arrive as a bare boolean or number |
| `OpenAiWire.EncodingKeepsPairs` | src/llm/openai-compatible.provider.ts:78-123 | encoding a request, system message included, keeps the ordered ids of calls and of answers |
| `OpenAiWire.BatchExactly` | src/llm/openai-compatible.provider.ts:146-158 | a completion makes the loop run tools if and only if it finished for tool_calls and carries a function call |
| `OpenAiWire.RequestIsRead` | src/llm/openai-compatible.provider.ts:78-123 | a reader written apart from the encoding sees, of every encoded request, its system text and of every message whose it is, its whole text and which call it answers |
| `OpenAiWire.ArgumentsExactly` | src/llm/openai-compatible.provider.ts:131-144 | what becomes of arguments: printed objects and arrays come back, other printed values come back under one key, malformed text and nothing become an empty object, other values pass |
| `OpenAiWire.FinishReasonsExactly` | src/llm/openai-compatible.provider.ts:66-75 | what each finish reason means, on both sides, and which token counts become which |
| `OpenAiWire.ToOpenAiMessages` | src/llm/openai-compatible.provider.ts:78-89 | the pushing loop puts the system message, if any, before the encoded history |
| `WirePairing.PendingOnTheWireExactly` | src/llm/anthropic-llm.provider.ts:69-79 | pending computed on the wire is pending in the history, in order, if and only if no answer without an id meets a pending call with the empty id |
| `WireSafety.RequestsArePairedOnTheWire` | src/agent/agent.service.ts:303-308 | every request of an approval, and of a chat with nothing pending, has all its calls answered on the wire, for all ids and both providers |

## Left out

- GuardedTools.GuardedCallRunsOnce: counts dispatches, exactly; an unconditional bound of one is false because nothing is persisted when the model fails after the tools ran, as `GuardedTools.LostApprovalsRunAgain` shows, and `GuardedTools.RunsAgainExactly` says when a repeat runs the tool again.
- TenantSimulation.InterleavingIsPrivate: assumes that no id about to be inserted is the id of another tenant's row; ids are primary keys of the whole table, and the condition is exact for a creation.
- IsolationRuns.RunsAgree: others may do anything in either world, but advance the shared id, model and clock counters equally in both, because ids and replies are drawn from shared streams.
- TicketLaws.ListsExactly: does not model equal creation times, which the database may list in either order.
- Tools.ToolRegistry.GetDefinitions: does not model the input schema of a definition, which is a Zod object the providers convert.
- Confluence.EveryOrderIsSequential: takes one tool execution as one step; interleavings inside two read-only tools are not modelled, as neither writes.
- Budgets.LoopsEndInTime: takes the cost of an iteration as a bound on the readings of the loop itself and on its end; the sleep between retries is reported by the retry theorem and not added to the clock.
- TokenRace.SingleUse: takes bcrypt as ideal, so a hash matches exactly its own token.
- Prisma operations the services never use: nested writes, raw queries, the AndReturn variants, and update data that itself carries a tenantId.
- `setStatus` of the conversation service, which nothing calls.
- The columns createdAt and updatedAt: rows are kept in creation order, which is what the newest-first listing sorts by.
- Ticket updates between the lookup and the write of one service call, and concurrent requests on one conversation: the code has no locking there.
- The text of messages, prompts, tool descriptions and logs; a response message is the note of what it says, a tool description is abridged, validation messages are fixed.
- Tool events are recorded in list order also for the concurrent bucket; events appear only in the trace of a run.
- Zod, beyond which fields a ticket tool requires, allows, checks and drops; the UUID check is a parameter.
- Request fields a provider only passes on: model names, token limits, tool schemas; JSON text itself, which is a pair of printing and parsing functions.
- Access tokens: the signed JWT of a session is not part of the model, nor are login, signup and password hashing.
- Deleting a user, which cascades to its tokens, is covered only as a revocation of all of them.
- NestJS wiring, controllers, DTO validation, guards, throttling, cookies, health checks, the fake provider, cassettes and deployment.
