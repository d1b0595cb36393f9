# Verified model of the agent backend's durable protocols

This project models, in Dafny 4.11, the parts of the repository whose correctness depends on state that many
callers share, and proves what they promise over every input, every interleaving or every run. `dafny verify
dfyconfig.toml` checks all of it.

| file | what it models |
|---|---|
| `Values.dfy` | payload trees as Python receives them (`Value`), and the tree a sorted JSON text stands for (`Json`, `Canon`) |
| `Tracing.dfy` | `safe_json`: redaction, truncation, summaries of large binary fields |
| `ToolRows.dfy` | the invocation and approval rows of one tool call, and what each SQL statement does to them |
| `ToolSystem.dfy` | any number of workers that run the three entry points statement by statement in transactions, with commits, rollbacks, lost connections and row locks; the invariant of that machine |
| `ToolGuarantees.dfy` | what the machine guarantees over all schedules |
| `ToolReplay.dfy` | repeating a committed decision, over all schedules: when it is recognised, and the race in which it is not |
| `ToolStore.dfy` | the service as a class, one transaction after another, and `wrap_tool_call` on top of it |
| `ToolRefinement.dfy` | the class's specification is what the machine does when nobody interferes |
| `HumanInTheLoop.dfy` | `after_model`: pairing interrupted calls with human decisions |
| `CacheService.dfy` | Redis cache-aside with locks, negative entries, failing commands and interfering callers |
| `ChatResponseCache.dfy` | cache keys of model requests, stored responses, the lock discipline of `wrap_model_call` |
| `Embeddings.dfy`, `Rag.dfy` | batch embedding and document search around that cache |
| `Policies.dfy` | the monthly token account and the per-minute rate limit |
| `Reconciler.dfy` | `AgentRunCompletionReconciler` with its timers and unsettled reads |
| `PdfText.dfy` | Base64 size estimate, history-wide PDF checks, the shared text budget |
| `MarkdownFence.dfy` | the code fence printer and a reader by section 4.5 of the CommonMark spec, with both kinds of fences |

How to read it. A class or method has the shape of the Python or TypeScript code it models; its `ensures` equates
the result or the new state with a specification function, or states the promised property outright. The lemmas
then say what follows for all inputs or all runs. In `ToolSystem.dfy` one `Step` is one SQL statement of one worker.
Uncommitted rows (`tx`) are visible to their writer only, a written row is locked until commit or rollback, an
insert of a key that another transaction has inserted waits for it, and every statement sees the newest committed
rows. Those are the rules of READ COMMITTED in PostgreSQL. Handlers, crashes and aborts may happen between any two
statements.

## Findings

* The promotion of a PENDING row to PENDING_APPROVAL (app/services/tool_invocation_service.py:228-235) is a read
  followed by an update without a guard. It is never reached. A PENDING row is only ever inserted by a claim, and
  the transaction that inserts it either moves it to RUNNING before it commits or rolls back, so no other
  transaction can read one (`ToolGuarantees.JointTables`, `ToolGuarantees.PromotionIsNeverReached`). A status can
  therefore change at most three times after it is first committed, not four (`ToolGuarantees.FewStatusChanges`).
* `safe_json` is idempotent for limits of 64 and more on every tree of JSON values, and on any other payload
  exactly when that payload is `Settled`. If the limit is at least 511, no surviving field `base64`, `data` or
  `file_data` may then hold an object that is not a string and whose `str()` has 512 characters or more: such an
  object becomes a text in the first pass and a summary in the second. For limits from 64 to 510 the text is cut too
  short for that, and every payload is settled (`Tracing.IdempotentIff`). Below 64 the digest in a summary is cut,
  and idempotence fails on a JSON tree (`Tracing.IdempotentOnJsonIff`). `_ensure_invocation` is not affected, because
  it normalises both sides the same number of times: an identical retry never hits its payload conflict, whatever
  was committed in between (`ToolStore.RetryIsAccepted`, and over all interleavings
  `ToolGuarantees.RetryIsNotRefused`). `_decision_matches` is, because it compares a stored payload that was
  normalised twice with one normalised once (`ToolRows.DecideMatchesIff`).
* A racing resume that carries the very decision another one commits can end in ApprovalConflict, although the
  comment at app/services/tool_invocation_service.py:439-440 promises to treat an exact match as idempotent. The
  invocation and the approval are read by two statements (341-356). If the other resume commits between them, the
  approval is settled, and the comparison at 382-384 sees the invocation as it was before, PENDING_APPROVAL, which
  matches no decision. Over all schedules a repeated decision is recognised if and only if its payload and arguments
  are settled and the reading of the invocation is not still PENDING_APPROVAL (`ToolReplay.RepeatedDecisionIff`).
  `ToolReplay.IdenticalResumeRefused` gives the refusing run for every decision. The refusal changes no row. A resume
  that begins after an identical one of settled decisions has returned is never refused, in any interleaving
  (`ToolReplay.LaterResumeSucceeds`).
* "At most `rpm_limit` calls per minute" needs an assumption that the code does not state. The minute of the key is
  read from the clock before the counter is incremented, and the key lives 120 seconds from its first increment.
  The limit holds over all interleavings if and only if no increment comes more than 60 seconds after its clock was
  read (`Policies.LimitHoldsIff`; `Policies.LateAttemptExceeds` gives the run that breaks it).
* A cached value that itself looks like a negative entry is not read back as written (`CacheService.ReadBackIff`
  says exactly when it is), and a tree that uses the hash marker as a field name can share a cache key with a long
  text (`ChatResponseCache.MarkerTreesCollide`).
* A reader that follows section 4.5 (fenced code blocks) of the CommonMark spec gets a printed text back exactly
  if and only if no line of the file's own name opens a fence, of backticks or of tildes
  (`MarkdownFence.FenceRoundTripIff`). Every name on one line is fine, a name with a line break need not be
  (`MarkdownFence.NameOpensBlock`).

## Model

| member | source | states |
|---|---|---|
| `Tracing.Normalize` | app/tracing/service.py:50-77 | the recursive, dictionary-filling code computes the specification `SafeJson` on every value |
| `Tracing.NormalizeFields` | app/tracing/service.py:58-72 | the loop over a mapping gives one output field per name, sensitive ones redacted, large binary ones summarised, the last field of a name winning |
| `Tracing.SafeFieldsAt` | app/tracing/service.py:58-72 | the output has exactly the input's field names, each once, and under each the treatment of that name's last value |
| `Tracing.SummaryIsFixed` | app/tracing/service.py:41-47 | a binary summary survives a second pass unchanged when at least 64 characters are allowed |
| `Tracing.SettledIsFixed` | app/tracing/service.py:50-77 | a second pass over a settled payload changes nothing |
| `Tracing.UnsettledChanges` | app/tracing/service.py:63-71 | a second pass over an unsettled payload changes even its order-free canonical text |
| `Tracing.IdempotentIff` | app/tracing/service.py:50-77 | for limits of at least 64, idempotence holds exactly on the settled payloads |
| `Tracing.JsonIsSettled` | app/tracing/service.py:50-72 | every tree of JSON values is settled |
| `Tracing.LargePayloadBelow64` | app/tracing/service.py:41-56 | for every limit below 64 a JSON tree on which the second pass differs |
| `Tracing.IdempotentOnJsonIff` | app/tracing/service.py:50-77 | idempotence on all JSON trees holds if and only if the limit is at least 64 |
| `ToolRows.CanonicalStableIff` | app/services/tool_invocation_service.py:67-80 | storing a payload keeps its canonical text if and only if the payload is settled |
| `ToolRows.MatchIsStable` | app/services/tool_invocation_service.py:306-330 | a decision that matches its rows keeps matching through every later claim, completion or failure |
| `ToolRows.PayloadIsStable` | app/services/tool_invocation_service.py:207-222 | a call that a row accepts is accepted by whatever becomes of the row |
| `ToolRows.DecideMatchesIff` | app/services/tool_invocation_service.py:387-430 | the rows a decision writes compare equal to the same decision exactly when it is repeatable |
| `ToolRows.DecideEvolves` | app/services/tool_invocation_service.py:393-430 | the pair of guarded updates keeps the joint rule of both tables and only moves forward |
| `ToolRows.StartEvolves` | app/services/tool_invocation_service.py:514-527 | so does the claim's compare-and-set |
| `ToolRows.FinishEvolves` | app/services/tool_invocation_service.py:564-610 | so do completion and failure, from any status |
| `ToolRows.ApprovalEvolves` | app/services/tool_invocation_service.py:265-279 | so does the insert of an open approval |
| `ToolSystem.MoveQuiet` | app/services/tool_invocation_service.py:155-548 | every statement that does not commit re-establishes what its worker relies on and writes no locked row |
| `ToolSystem.PublishKinds` | app/services/tool_invocation_service.py:288-548 | only four statements commit, each with exactly its announcements |
| `ToolSystem.JobStable` | app/services/tool_invocation_service.py:499-527 | what a worker read and relies on between two statements survives every commit of another worker |
| `ToolSystem.ClaimCommitKeeps` | app/services/tool_invocation_service.py:514-533 | committing a claim keeps the invariant although other workers ran since its snapshot |
| `ToolSystem.DecideCommits` | app/services/tool_invocation_service.py:374-432 | committing a batch keeps the invariant and announces each decision it made exactly once |
| `ToolSystem.EnsureCommits` | app/services/tool_invocation_service.py:250-288 | committing new approvals keeps the invariant |
| `ToolSystem.EndHandlerKeeps` | app/services/tool_invocation_service.py:564-610 | completing or failing a running call keeps the invariant |
| `ToolSystem.ApplyKeeps` | app/services/tool_invocation_service.py:155-610 | every action of every worker, including crashes, keeps the invariant and moves committed rows only forward |
| `ToolGuarantees.Reachable` | app/services/tool_invocation_service.py:155-610 | the invariant holds after every schedule of any number of workers |
| `ToolGuarantees.Forward` | app/services/tool_invocation_service.py:155-610 | between any two points of a run committed rows only evolve and the log only grows |
| `ToolGuarantees.AtMostOneExecution` | app/services/tool_invocation_service.py:475-548 | should_execute is handed out at most once per key; attempts are at most 1, and 1 exactly for RUNNING, SUCCEEDED, FAILED and exactly when it was handed out |
| `ToolGuarantees.HandlersExclude` | app/services/tool_invocation_service.py:512-533 | in every reachable state at most one worker is inside the handler of a key |
| `ToolGuarantees.JointTables` | app/services/tool_invocation_service.py:155-291 | the joint rule of the two tables in every committed state; PENDING is never visible |
| `ToolGuarantees.PromotionIsNeverReached` | app/services/tool_invocation_service.py:228-235 | no worker ever stands before the unguarded promotion |
| `ToolGuarantees.ApprovalBeforeExecution` | app/services/tool_invocation_service.py:393-527 | a call that ever waited for approval is handed out only after a committed approval or edit, with that decision's tool name and canonical input |
| `ToolGuarantees.DecisionsAreFinal` | app/services/tool_invocation_service.py:362-455 | a resume that returns carried the decision that was committed; with a different one it cannot return |
| `ToolGuarantees.LoserIsRefused` | app/services/tool_invocation_service.py:382-455 | a resume that comes to a call decided differently is refused with ApprovalConflict, or sent to its second pass; the winner's rows stay as they are |
| `ToolGuarantees.RetryIsNotRefused` | app/services/tool_invocation_service.py:207-222 | once a committed row accepts a call, no later attempt to ask for its approval or record its decision meets the payload conflict, in any interleaving |
| `ToolGuarantees.RacingResumesAgree` | app/services/tool_invocation_service.py:439-455 | two resumes that both return agree on kind, tool, payload and arguments; which identical ones return is the subject of `ToolReplay.RepeatedDecisionIff` |
| `ToolGuarantees.RefusalLeavesTables` | app/services/tool_invocation_service.py:433-455 | an entry point that raises has left both tables as they were and holds no row |
| `ToolGuarantees.BatchIsAtomic` | app/services/tool_invocation_service.py:374-432 | a returning batch writes all its decisions in one step, each onto rows that were open, and no other row |
| `ToolGuarantees.LateApprovalStaysOpen` | app/services/tool_invocation_service.py:265-287 | an approval created when its call already ran or ended is never decided |
| `ToolGuarantees.FewStatusChanges` | app/services/tool_invocation_service.py:393-610 | every status change raises the rank, so a committed call changes status at most three times |
| `ToolGuarantees.TerminalAbsorbs` | app/services/tool_invocation_service.py:575-610 | SUCCEEDED, FAILED and REJECTED rows never change again |
| `ToolReplay.RepeatedDecisionIff` | app/services/tool_invocation_service.py:341-384 | over all schedules the very decision that was committed is recognised if and only if it is settled and the reading of the invocation is not still PENDING_APPROVAL; otherwise it is refused with ApprovalConflict and no row changes |
| `ToolReplay.IdenticalResumeRefused` | app/services/tool_invocation_service.py:341-384 | for every decision a run of two workers with the same decision in which one commits it and the other is refused |
| `ToolReplay.LaterResumeSucceeds` | app/services/tool_invocation_service.py:374-432 | a resume that begins after an identical one of settled decisions has returned is never refused, in any interleaving, and is under way or has returned |
| `ToolReplay.RecordedIsRecognisable` | app/services/tool_invocation_service.py:386-432 | a batch that returned has left, for each settled decision, rows of its own call that compare equal to it |
| `ToolStore.ReplayIsNoOp` | app/services/tool_invocation_service.py:374-385 | replaying a recorded batch of repeatable decisions in a transaction that nothing overlaps, after anything committed since, succeeds and changes nothing |
| `ToolStore.RetryIsAccepted` | app/services/tool_invocation_service.py:207-222 | an identical retry of an accepted call is accepted and changes nothing, whatever was committed since |
| `ToolStore.AskingAgainIsNoOp` | app/services/tool_invocation_service.py:249-288 | asking again for approvals that were asked for refuses nothing and changes nothing |
| `ToolStore.PendAllOk` | app/services/tool_invocation_service.py:249-288 | a loop that goes through leaves valid rows, and both rows for every call |
| `ToolStore.ClaimRetryReports` | app/services/tool_invocation_service.py:505-510 | a call that was handed out is ever after answered from its row |
| `ToolStore.RecordAllOk` | app/services/tool_invocation_service.py:374-432 | a batch that goes through leaves valid rows, each of its own request and carrying its decision |
| `ToolStore.CheckAllOk` | app/services/tool_invocation_service.py:439-452 | the second pass changes no row and passes only rows that carry every decision |
| `ToolStore.ClaimedOk` | app/services/tool_invocation_service.py:475-533 | an accepted claim keeps the rows valid, executes only from a new or approved row, and otherwise changes nothing |
| `ToolStore.ApprovedCallIsAccepted` | app/services/tool_invocation_service.py:499-527 | after an approval or edit the effective call is accepted, and executes exactly when it has not started yet |
| `ToolStore.OriginalCallRefusedIff` | app/services/tool_invocation_service.py:499-503 | the original call is refused exactly when the decision changed the tool or the canonical input |
| `ToolStore.Store.EnsureInvocation` | app/services/tool_invocation_service.py:155-236 | the statements of `_ensure_invocation` compute its specification, with every refusal |
| `ToolStore.Store.EnsurePendingApprovals` | app/services/tool_invocation_service.py:239-291 | all calls get both rows, or the tables are unchanged and the error of the first refused call is returned |
| `ToolStore.Store.RecordApprovalDecisions` | app/services/tool_invocation_service.py:362-455 | the two loops commit the whole batch, or nothing with the error of the failing pass; a normal return means the rows carry every decision |
| `ToolStore.Store.RecheckDecisions` | app/services/tool_invocation_service.py:439-455 | the second pass answers as its specification, succeeds exactly when every decision matches, and writes nothing |
| `ToolStore.Store.ClaimToolInvocation` | app/services/tool_invocation_service.py:475-548 | the claim's new tables, snapshot and refusals equal the specification |
| `ToolStore.Store.EndToolInvocation` | app/services/tool_invocation_service.py:564-610 | only a RUNNING row is finished |
| `ToolStore.Store.WrapToolCall` | app/agents/chat.py:1195-1305 | a call that the tool policy forbids does not reach the claim; the handler runs exactly when the claim says so and its outcome is recorded; otherwise the stored outcome, the current status or the refusal is returned and nothing changes |
| `ToolStore.CallTwice` | app/agents/chat.py:1277-1305 | repeating a call whose handler ran reports the stored outcome and does not run the handler again |
| `ToolRefinement.SoloClaim` | app/services/tool_invocation_service.py:475-548 | without interference three statements of the machine have exactly the tables and answer of the sequential claim, or its refusal |
| `ToolRefinement.SoloRecord` | app/services/tool_invocation_service.py:362-432 | without interference the machine commits, refuses or rechecks a batch, with the rows and errors of the sequential loops |
| `ToolRefinement.SoloEnsure` | app/services/tool_invocation_service.py:239-291 | without interference the machine asks for approvals, or refuses, with the rows and error of the sequential loop |
| `HumanInTheLoop.CollectInterrupted` | app/agents/chat.py:220-240 | the interrupted calls are collected in order and counted |
| `HumanInTheLoop.ReviseCalls` | app/agents/chat.py:276-318 | the loop with its two indices pairs the k-th interrupted call with the k-th decision, keeps the others in place, and adds one message per rejection |
| `HumanInTheLoop.AfterModel` | app/agents/chat.py:200-334 | approvals are committed before the interrupt, and the tables after every outcome; a normal return has recorded exactly the paired decisions and returns the paired calls; unfit verdicts are refused exactly |
| `HumanInTheLoop.ReturnedCallIsAccepted` | app/agents/chat.py:276-334 | an approved or edited call that is returned is accepted by the claim that follows |
| `HumanInTheLoop.OriginalArgumentsRefusedIff` | app/agents/chat.py:298-314 | once the paired decisions are recorded, a call's original arguments are refused exactly when its decision changed name or canonical arguments |
| `HumanInTheLoop.ResumeIsNoOp` | app/agents/chat.py:251-331 | a resumed run that asks and records the same again in transactions that nothing overlaps, after anything committed since, is neither refused nor changes a row |
| `CacheService.ReadBackIff` | app/cache/service.py:53-72 | a written value reads back with its value and sign if and only if it is negative or is not itself a negative entry |
| `CacheService.LeaseLifetime` | app/cache/service.py:132-169 | a lease lives exactly until it expires or its own holder gives it back, whatever anybody else does |
| `CacheService.GrantsExclude` | app/cache/service.py:132-169 | mutual exclusion over runs: between two grants of a lock key the first lease has expired or its own token was given back |
| `CacheService.Cache.GetJsonLookup` | app/cache/service.py:85-99 | without an error the answer is exactly the server's live entry, which is one some producer of the key may give; errors are misses |
| `CacheService.Cache.SetJson` | app/cache/service.py:104-115 | issues one write of the one entry when the cache is enabled; a reported success has written it, a failure may or may not have |
| `CacheService.Cache.AcquireLock` | app/cache/service.py:132-146 | a granted lock is held with a new token, never granted while another one lives, and touches no other key |
| `CacheService.Cache.ReleaseLock` | app/cache/service.py:148-169 | removes the caller's own live lease and nothing else, so never a successor's |
| `CacheService.Cache.WaitForJson` | app/cache/service.py:171-193 | polling ends with a faithful answer, an error, or a miss once the deadline is reached |
| `CacheService.Cache.Interfere` | app/cache/service.py:85-236 | whatever other callers do keeps all entries faithful and leaves a holder's lease until it expires |
| `CacheService.Cache.GetOrSetJson` | app/cache/service.py:195-236 | for any value, failures, expiries, lock losses and other callers, the value and sign are the producer's if that is all its key may answer; the caller writes exactly what it produced and may cache; every lock it was granted is released by exactly one attempt, also when the producer raises |
| `ChatResponseCache.PayloadOfCanon` | app/services/chat_response_cache.py:32-50 | the key payload of a value depends on its canonical tree only |
| `ChatResponseCache.KeyPayloadInjectiveIff` | app/services/chat_response_cache.py:32-50 | with injective digests, payloads of marker-free values are equal exactly when their canonical trees are |
| `ChatResponseCache.MarkerTreesCollide` | app/services/chat_response_cache.py:24-50 | for every long text a tree with the marker that has the same payload |
| `ChatResponseCache.MessagesSeparate` | app/services/chat_response_cache.py:53-77 | equal message payloads mean the same kind, content, name, tool calls and tool call id |
| `ChatResponseCache.KeysSeparateRequests` | app/services/chat_response_cache.py:80-101 | equal keys mean the same user, model, system message, messages and context |
| `ChatResponseCache.StoredIsReadBack` | app/services/chat_response_cache.py:117-188 | a stored cacheable response is read back with the same content and is cacheable again |
| `ChatResponseCache.WrapModelCall` | app/agents/chat.py:1074-1127 | a hit answers with a response stored for the same key, or raises if its accounting does; otherwise the call is refused, raises or produces as it would without a cache; exactly the cacheable produced response is written; every path attempts the release of its lock exactly once |
| `ChatResponseCache.HitAnswersSameRequest` | app/services/chat_response_cache.py:80-188 | the content of a hit was given to a request of the same user and model with the same messages |
| `Embeddings.EmbedDocuments` | app/rag/embeddings.py:45-72 | for every mix of hits, misses, duplicates and failed writes the result is the pointwise embedding, in order; every write stores a text's own vector under that text's key |
| `Rag.UnseenChange` | app/rag/service.py:57-77 | a change outside the ready documents changes no search |
| `Rag.RagService.IngestFile` | app/rag/service.py:41-118 | a duplicate is returned exactly when a document of the same content has not failed; new, retried and failing ingests store what they say and touch no other document; every cached search still equals a direct one |
| `Rag.RagService.DeleteDocument` | app/rag/service.py:184-193 | deletes exactly the user's own document and keeps cached searches equal to direct ones |
| `Rag.RagService.Search` | app/rag/service.py:120-173 | cached or not, a search answers what the database would answer now |
| `Policies.ResetOncePerMonth` | app/policies/service.py:57-63 | a reset makes the account due again exactly from the next calendar month on |
| `Policies.TokenUsage` | app/agents/chat.py:835-850 | the loop sums each message's usage with its fallbacks, and prompt plus completion when no total is given |
| `Policies.CallKeepsBalance` | app/agents/chat.py:1004-1113 | one call keeps the account equal to the charges of its month, and only charges below the quota |
| `Policies.AccountIsMonthTotal` | app/policies/service.py:46-111 | over any serial run the account holds exactly the usage of handler responses recorded in its calendar month |
| `Policies.OvershootBelowOneCall` | app/policies/service.py:71-82 | in no month do the charges pass the quota by as much as one call's usage |
| `Policies.QuotaSpentIff` | app/policies/service.py:71-82 | a call is refused for its quota exactly when the charges of its calendar month reach the quota |
| `Policies.AdmittedExactly` | app/policies/service.py:88-95 | under every timely interleaving exactly the first `limit` attempts of a user's minute are admitted |
| `Policies.LateAttemptExceeds` | app/policies/service.py:88-93 | one attempt delayed by over a minute admits one call too many |
| `Policies.LimitHoldsIff` | app/policies/service.py:88-95 | the limit holds over all interleavings if and only if increments lag their clock by at most a minute |
| `Policies.PolicyService.GetPolicy` | app/policies/service.py:46-68 | the stored and returned account is the refreshed one; without an active user nothing changes |
| `Policies.PolicyService.AuthorizeModelAccess` | app/policies/service.py:71-82 | granted exactly for an allowed model with quota left |
| `Policies.PolicyService.EnforceModel` | app/policies/service.py:85-99 | consumes one slot exactly when authorized, and grants exactly within the limit or when Redis fails |
| `Policies.PolicyService.RecordTokenUsage` | app/policies/service.py:102-111 | adds positive usage to the refreshed account of an active user, and nothing otherwise |
| `Policies.PolicyService.ModelCall` | app/agents/chat.py:1065-1113 | the hooks of one call change the account as the ledger's call does; a hit adds nothing |
| `Reconciler.Reachable` | frontend/src/lib/agent-run-timeout.ts:91-148 | the invariant holds after every interleaving of start, clear, timers and settling reads |
| `Reconciler.ActiveIffOneLive` | frontend/src/lib/agent-run-timeout.ts:91-148 | active exactly when one live continuation exists, and there is never a second |
| `Reconciler.TerminalOncePerStart` | frontend/src/lib/agent-run-timeout.ts:106-135 | onTerminal is called at most once for each start that took effect, and for no other generation |
| `Reconciler.NoTerminalAfterClear` | frontend/src/lib/agent-run-timeout.ts:137-143 | after clear, onTerminal is never called for an earlier start |
| `Reconciler.LaterTerminals` | frontend/src/lib/agent-run-timeout.ts:124-129 | a start that is over brings no later terminal |
| `Reconciler.StaleReadIsHarmless` | frontend/src/lib/agent-run-timeout.ts:124-124 | a read of an older generation only disappears: it neither rearms nor reports |
| `Reconciler.AgentRunCompletionReconciler.StartPolling` | frontend/src/lib/agent-run-timeout.ts:106-135 | the method is the machine's start |
| `Reconciler.AgentRunCompletionReconciler.ClearPolling` | frontend/src/lib/agent-run-timeout.ts:137-143 | the method is the machine's clear |
| `Reconciler.AgentRunCompletionReconciler.OnTimer` | frontend/src/lib/agent-run-timeout.ts:115-119 | the callback up to its await is the machine's timer step |
| `Reconciler.AgentRunCompletionReconciler.OnRead` | frontend/src/lib/agent-run-timeout.ts:119-131 | the callback after its await is the machine's read step |
| `PdfText.DecodeEncode` | app/agents/chat.py:531-532 | the decoder of the model inverts the encoder of section 4 of RFC 4648 on all byte strings |
| `PdfText.SizeIsExact` | app/agents/chat.py:471-478 | the estimate is the decoded length of every valid encoding |
| `PdfText.SizeIsUpperBound` | app/agents/chat.py:471-478 | on every other text it bounds what even a decoder that skips foreign characters could produce |
| `PdfText.SizeBoundsAccepted` | app/agents/chat.py:471-478 | it bounds the decoded length of every text that Python's strict decoder accepts, stray padding included |
| `PdfText.ValidateHistory` | app/agents/chat.py:492-516 | accepts exactly the histories with at most three PDF blocks whose estimates fit the limit together |
| `PdfText.JoinOfMorePages` | app/agents/chat.py:563-596 | the joined text of fewer pages is a prefix of that of more |
| `PdfText.ExtractPages` | app/agents/chat.py:556-596 | the body is a prefix of the untruncated text, truncated exactly when that text exceeds the remaining budget, and then wastes at most two characters of it |
| `PdfText.PdfBlockToText` | app/agents/chat.py:519-604 | a block that goes through adds its decoded bytes and its budgeted text; the Base64 and size errors exactly when they apply |
| `PdfText.NormalizeHistory` | app/agents/chat.py:665-704 | every PDF block is converted in order, the extracted lengths add up to the budget's counter, at most 120000, the decoded bytes stay within the estimates, and after acceptance no size check fails |
| `MarkdownFence.FenceOutlastsRuns` | frontend/src/lib/multimodal-utils.ts:289-294 | the fence is longer than every run of backticks in the text |
| `MarkdownFence.ReadsBack` | frontend/src/lib/multimodal-utils.ts:289-308 | reading up to the closing fence gives back every character of the text, line endings of all kinds included |
| `MarkdownFence.FenceRoundTripIff` | frontend/src/lib/multimodal-utils.ts:296-308 | the first block a reader of section 4.5 finds, in backticks or tildes, has the language and exactly the text, with only the notice after it, if and only if the name opens no block |
| `MarkdownFence.OneLineNameIsSafe` | frontend/src/lib/multimodal-utils.ts:308-308 | a name on one line opens no block |
| `MarkdownFence.NameOpensBlock` | frontend/src/lib/multimodal-utils.ts:308-308 | names with line breaks that open one, with backticks and with tildes |

## Left out

- ToolSystem.MoveQuiet: rows of one key lock together, as if the invocation and its approval were one row. The schedules this removes are those in which a completion commits between an approval's insert and its commit, and deadlocks between the two rows, which show up as aborted transactions only.
- ChatResponseCache.KeysSeparateRequests: injective digests are an assumption of the statement, and SHA-256 itself is not modelled.
- Rag.RagService.Search: operations come one at a time and Redis is reachable; the lock and the failures of the cache are covered in `CacheService.dfy` only.
- Policies.AccountIsMonthTotal: calls come one after the other and no administrator edits the account; concurrent calls may each pass the quota check before any of them is charged.
- Policies.LimitHoldsIff: a counter is gone as soon as its 120 seconds are over, to the millisecond.
- Row ids, timestamps, `runtime_run_id`, `decided_by_user_id` and conversation ids are not stored; ids are identified with the unique key, so the check of an approval's `invocation_id` (app/services/tool_invocation_service.py:286-287) cannot fail here.
- The idempotency key is the triple it is a digest of; the digest is taken to be injective.
- Conversations are a map from threads to owners that a statement reads; deleting users, with its cascades, is not modelled.
- Field names are stripped and lower-cased as ASCII, and Unicode case folding is not modelled.
- JSON texts stand for trees; their characters, number formats and duplicate-key encodings are not modelled.
- LangChain's `_process_decision`, `_should_interrupt` and `interrupt` are parameters: which calls are interrupted, which decision kinds are allowed, what the human answered. An edit keeps the call id and a rejection adds a message.
- A call without a user id takes no part in the durable protocol; `wrap_tool_call` then runs its handler directly. What `enforce_tool` decides is a parameter.
- PDF parsing and the stripping of page texts are an unknown function from bytes to page strings; the wording of notices is not modelled beyond the fence printer's.
- The reader of a printed block knows section 4.5 of the CommonMark spec and no other structure: no HTML blocks, no nesting in lists or quotes, no replacement of U+0000, and lengths count characters rather than UTF-16 units.
- TTL jitter is an arbitrary positive lifetime, and tokens are fresh numbers instead of UUIDs.
- `AgentRunWatchdog`, `resolveAgentRunTimeoutMs` and `ResumedRunLifecycleTracker` would add only easy members.
- Ingestion keeps no files: unlinking, storage and document loaders are not modelled, and similarity ranking is an unknown function of the visible documents.
- Liveness: a crash after a committed claim leaves the call RUNNING for good, and only at-most-once execution is promised.
