# A verified model of the workflow engine, its guards and its stores

This project models the parts of the AI-enterprise backend that are hard to get right by reading:

- the pausable workflow engine (start, step loop, escalation behind an approval, resume, crash at any await);
- the two rate limiters and the keys they count under;
- the unpadded base64url codec and the compact access token built on it;
- the tenant-scoped database session, and the append-only audit table with its purge;
- the two top-k vector searches and the cosine score they rank by;
- role grants, permission checks and keyword escalation, as far as the above rests on them.

`dafny verify dfyconfig.toml` checks everything.

## How it is laid out

| module | what it holds |
|---|---|
| `Workflow` | the tables' rows, and `Straight`: the uninterrupted step loop with escalation off, the meaning a run is held to |
| `Engine` | the state machine over commit points: events, their guards, their effects, the invariant and why each event keeps it |
| `EngineTheorems` | theorems over every history: transparency, the approval gate, at-most-once, termination, accounting, permission |
| `RunRecords` | what a reachable state's calls, rows, decisions and runs say in plain terms, without the functions that compute them |
| `Executor` | the handlers and the step loop as imperative code over the tables, proved against `Straight` and the state machine |
| `StaleResume` | two resume handlers on one run, interleaving freely: exactly when that is safe, and the check that would make it so |
| `Agents`, `Rbac` | escalation rules; users, roles and the grant operations |
| `MemoryLimiter`, `RedisLimiter`, `LimiterKeys` | the limiters, the second one as an interleaving of many workers |
| `Base64Url`, `Token` | the codec and the token |
| `Session`, `AuditPurge` | row-level security over a session's statements; the audit table |
| `Cosine`, `TopK`, `TopKAgreement` | the score, the two searches, and exactly when they agree |

In `Executor`, `Elsewhere` stands for everything other handlers may do while one of them waits, so each
handler's contract holds under interleaving; a crash is an event of the state machine between any two
commits, and a handler that stops at an await leaves a state the theorems of `EngineTheorems` cover.
`pool` gives, for each step of a run, the settings its connection falls back to after a commit, which may be
anyone's.

## Assumptions

- One driver per run at a time, and an atomic read-check-write for a decision and for resume's
  ESCALATED-to-RUNNING step. The code reads in one session and writes in another with no lock
  (app/workflows/router.py:166-188, 225-230). `StaleResume` drops the assumption for two resumes of one run.
- The AI providers are an arbitrary function of run, step and prompt that answers with text or "all providers
  failed". Any other exception out of a call is a crash.
- Workflow and department registries do not change, so the 500 answers of the resume handler for a vanished
  workflow cannot arise. Nothing in the repository revokes a grant, a role or an account.
- In-memory limiter: one asyncio process and, for the sliding bounds, a clock that does not step back.
  Redis limiter: one clock for all workers and, where `punctual` is required, each INCR lands before its
  stamped window is over. Without that a window can exceed any limit by one (`LateIncrExceedsTheLimit`);
  `LimitHoldsExactly` says, with no assumption on timing, when each window keeps it.
- HMAC, JSON and UTF-8 are arbitrary functions; the token theorems require that the JSON parser reads back
  the payload the printer wrote. The decoder is CPython's lenient base64 decoder.
- Letters are lower-cased as ASCII. Scores are exact reals and the database ranks exactly.
- The session model is Postgres with row security enforced; the purge runs as the table's owner outside it, and
  no application action is called `audit.purge_completed`.

## Where code and documentation disagree

The model follows the code.

- The pgvector search documents a fallback for rows without a native vector, so that results are correct either
  way (app/knowledge/vector_store.py:62-66). There is none. `TopKAgreement.PathsAgreeExactly` says when results are
  the same, `NothingIsOmittedExactly` when as many come back, and `UnindexedRowIsLost` is the smallest failure.
- A zero vector scores 0.0 in memory (app/knowledge/vector_store.py:31-32) and is not a number, sorted last, in the
  database: part of the same condition, with `ZeroVectorHasNoGrade` as the smallest case.
- An empty department string means "no filter" in memory and "department is empty" in SQL
  (app/knowledge/vector_store.py:50, 75). The first three lemmas cover it: rows of other departments are unindexed.
- The dry run counts old purge records that the purge keeps (scripts/purge_audit_logs.py:50, 73):
  `AuditPurge.DryRunCounts` gives the difference and the exact condition for none, `OldPurgeRecordIsAnnounced` one row.
- The escalation branch reads the run after the approval's commit without setting the tenant context again
  (app/workflows/executor.py:116-132), and a permission is assigned after a seeding commit
  (app/permissions/service.py:67-73). Both find their row only if the connection's inherited settings happen to
  admit it: `Session.EscalationRereadsUnscoped`, `Session.RoleLookupAfterSeeding`, and on a connection that
  inherited nothing `FreshConnectionLosesTheRun`. `Executor.Platform.FinishPaused`
  and `Rbac.PermissionService.AssignPermissionToRole` carry both outcomes; a lost run is left RUNNING with an
  orphaned approval.
- A run whose driver dies mid-step stays RUNNING for ever: `EngineTheorems.StrandedStaysStranded`, and
  `StartedAndDied` for the shortest history.

## Model

| member | source | states |
|---|---|---|
| Workflow.TraceIsChained | app/workflows/executor.py:69-77 | the reference loop makes one call per step in order, each prompt built from the previous answer, ending at the first failure or the last step |
| Workflow.ChainedUnique | app/workflows/executor.py:69-77 | only one sequence of calls fits that description |
| Engine.StaysOnTrack | app/workflows/executor.py:79-165 | every event of a run's life keeps its rows and calls a prefix of the reference loop, with status and driver position to match |
| Engine.StaysGated | app/workflows/executor.py:115-136 | every event keeps each escalated row tied to an existing approval of the run's tenant, which is APPROVED once the run is past it |
| Engine.StaysBalanced | app/workflows/executor.py:88-167 | every event keeps approvals, escalated rows, resumes and audit rows in step |
| Engine.StaysAuthorised | app/workflows/router.py:206-220 | every event keeps each row, and each step still to drive, vouched for by a permitted caller |
| EngineTheorems.StepKeepsInv | app/workflows/executor.py:69-167 | any event of any handler, crashes, decisions and grants included, keeps the whole invariant for every run |
| EngineTheorems.Invariant | app/workflows/executor.py:69-167 | the invariant holds after every history |
| EngineTheorems.RecordsOnlyGrow | app/workflows/models.py:36-71 | over any continuation a run keeps its identity and every row, call, gate and audit row recorded so far |
| EngineTheorems.DecisionsStand | app/approvals/router.py:106-114 | over any continuation a decided approval keeps status and decider, and grants stay |
| EngineTheorems.ResumeIsTransparent | app/workflows/router.py:190-196 | however often a run was paused, resumed or abandoned, its calls are a prefix of the uninterrupted loop's and its rows record them at indices 0..k-1; finished means all of it, FAILED exactly at a failed call |
| EngineTheorems.RowShape | app/workflows/executor.py:79-88 | in every reachable state rows 0..k-1 carry the workflow's departments; a FAILED row is last and only in a FAILED run, ESCALATED means the last row escalated and all COMPLETED, COMPLETED means all steps |
| EngineTheorems.PausedAndUnpausedRunsAgree | app/workflows/router.py:232-235 | two deployments that differ only in escalation rules finish a run with the same calls, outputs, errors and status |
| EngineTheorems.NothingPassesAnUnapprovedPause | app/workflows/router.py:175-188 | an escalated row with anything after it has an approval of its own, approved by an owner or administrator of the run's tenant |
| EngineTheorems.PassedPausesStayApproved | app/approvals/router.py:106-114 | no later event, crash or decision undoes that |
| EngineTheorems.OneApprovalPerPause | app/workflows/executor.py:116-134 | no approval stands behind two pauses, of one run or of two |
| EngineTheorems.PendingIdIsMeaningful | app/workflows/models.py:47-51 | an ESCALATED run names an existing approval of its tenant; a pending id left on any other status is approved |
| EngineTheorems.EachStepAskedAtMostOnce | app/workflows/executor.py:69-77 | the j-th call of a run's whole life is for step j, and a completed run made exactly one per step |
| EngineTheorems.EveryRunEnds | app/workflows/router.py:195 | a run of n steps makes at most 5n + 2 calls and commits in its life |
| EngineTheorems.DriverNeverBlocked | app/workflows/executor.py:69-167 | a driver always has a next call or commit it can make |
| EngineTheorems.StrandedStaysStranded | app/workflows/router.py:175-179 | a run without driver that is not ESCALATED, or whose approval was rejected, never moves again |
| EngineTheorems.StartedAndDied | app/workflows/router.py:86-105 | a run started by a process that dies before its first step is RUNNING and stranded |
| EngineTheorems.WaitingRunsCanResume | app/workflows/router.py:175-188 | any other idle run can be resumed by a permitted colleague exactly when its approval is granted, and a pending one can be decided |
| EngineTheorems.EscalationsAreAccountedFor | app/workflows/executor.py:116-141 | approvals exceed escalated rows by at most one and not at all outside RUNNING; audit rows never exceed what they report and match it in crash-free runs |
| EngineTheorems.EveryRowWasPermitted | app/workflows/router.py:54-65 | every persisted row was driven by someone permitted for its department when loaded, and permitted ever since |
| RunRecords.PromptReadsItsTemplate | app/workflows/executor.py:69-77 | in every reachable state call i goes to step i's department and its prompt is the template piece by piece: words as they are, {input} as the run's input, {previous} as the text of reply i-1, or "(no prior step)" if there is none or it is empty |
| RunRecords.RowRecordsItsAnswer | app/workflows/executor.py:78-82 | row i records the answer to call i: a text as output of a COMPLETED row, a failure as error of a FAILED one, nothing else |
| RunRecords.RowEscalatesExactly | app/workflows/executor.py:114-131 | a row is escalated if and only if a rule of its department's agent fires on the reply alone, with the first such rule's condition as reason; the executive office's never is |
| RunRecords.FailedRunNamesItsStep | app/workflows/executor.py:85 | a run has an error text if and only if it FAILED, and the text names its last row's index, department and error |
| RunRecords.StatusIsTheDecision | app/approvals/router.py:106-114 | in every reachable state an approval is APPROVED if and only if the history holds an acceptance of it, and REJECTED if and only if it holds a refusal |
| RunRecords.DeciderDecided | app/approvals/router.py:109-110 | the recorded decider made the decision the status shows |
| RunRecords.ApprovalIsAsFiled | app/approvals/service.py:12-24 | an approval has the tenant, department and requester of the request that filed it, or those of a call of the run whose agent asked for it |
| RunRecords.PassedPauseWasAccepted | app/workflows/router.py:175-188 | behind every pause a run has gone past stands an acceptance, and no refusal, by an owner or administrator of the run's tenant |
| RunRecords.RunIsAsStarted | app/workflows/router.py:86-93 | a run has the workflow, the non-empty input and the starter it was started with, and its starter's tenant |
| RunRecords.RowWasDrivenByAColleague | app/auth/rbac.py:37-44 | every row was driven by a user of the run's tenant who is administrator, owner, or holds that department's permission through a role |
| StaleResume.StaleResumeIsSafeExactly | app/workflows/router.py:166-235 | with both handlers free to go on, a resume acting on an old reading leads to no step asked twice, no two rows of one index and no second ending if and only if the other is not about to write RUNNING too and the run is still ESCALATED with no new row, or the other died between RUNNING and its first call |
| StaleResume.RecheckingIsSafe | app/workflows/router.py:175-230 | if each handler repeated that check together with writing RUNNING, every continuation would be safe |
| StaleResume.InterleavedResumesRepeatAStep | app/workflows/router.py:225-235 | both read the pause, both commit RUNNING, then each runs the step: two equal rows of one index and two equal calls, though nothing had changed when the second committed |
| StaleResume.RacingResumesRepeatAStep | app/workflows/router.py:225-235 | two resumes of one approved pause ask the next step twice and write two rows of one index |
| Executor.Platform.RunWorkflowFromStep | app/workflows/executor.py:49-169 | under interleaving, one driver writes exactly the rows, run fields and audit row that the reference loop prescribes up to its first failure or pause, and returns that outcome; a pause files one new approval for that step and tenant, and leaves nothing else exactly if the inherited settings hide the run |
| Executor.Platform.Turn | app/workflows/executor.py:69-156 | one turn either ends the leg as prescribed or passes one call that neither fails nor pauses |
| Executor.Platform.FinishFailed | app/workflows/executor.py:78-96 | the failure branch: failed row and FAILED run in one commit, then one workflow.failed audit row |
| Executor.Platform.FinishPaused | app/workflows/executor.py:114-147 | the escalation branch: a fresh approval in its own commit; then, exactly if the inherited settings let the run be read again, escalated row and ESCALATED run naming it and one audit row, otherwise nothing more |
| Executor.Platform.FinishDone | app/workflows/executor.py:158-167 | completion clears the pending id and adds one workflow.completed audit row |
| Executor.Platform.FileForApproval | app/approvals/service.py:12-24 | adds one PENDING approval under an unused id, for the run's tenant and the step's department, and nothing else |
| Executor.Platform.CheckSteps | app/workflows/router.py:55-65 | the loop's answer is that of the first step the caller may not drive, or none |
| Executor.StepRefusal | app/workflows/router.py:55-65 | no step is refused exactly when all are permitted; otherwise the refusal is that of the first step the caller may not drive, all before it being permitted |
| Executor.NothingRefusedExactly | app/workflows/router.py:40-84 | the handlers' guards in their order let a run start, or resume, exactly when the state machine does |
| Executor.Platform.RunWorkflow | app/workflows/router.py:40-107 | answers with the first guard that fails and then changes nothing; otherwise the run is inserted and either queued before its first step or driven to its first stop |
| Executor.Platform.PlanResume | app/workflows/router.py:166-220 | answers with the first resume guard that fails; otherwise with the number of rows and the last output |
| Executor.Platform.ResumeWorkflow | app/workflows/router.py:154-237 | answers with the first guard that fails and then changes nothing; otherwise it does what the uninterrupted loop would do next |
| Executor.Platform.DecideApproval | app/approvals/router.py:81-120 | every refusal in the handler's order, with nothing changed; otherwise "approved" makes the approval APPROVED and "rejected" REJECTED, decided by this user, and every other table row stays |
| Executor.DoneReadsTheTables | app/workflows/executor.py:155-169 | a leg that reports completion reports exactly the rows it added, and the run is COMPLETED with nothing pending |
| Executor.FailureReadsTheTables | app/workflows/executor.py:78-96 | a leg that reports a failure reports the rows before it, and the department and error of the FAILED last row |
| Executor.PauseReadsTheTables | app/workflows/executor.py:127-147 | a leg that reports a pause reports every row it added, the escalated last row's department and reason, and the approval the run now waits for |
| Executor.StepRefusalReads | app/workflows/router.py:55-65 | 500 with the department no agent is registered for, or 403 with the one whose code the caller lacks, whichever step comes first |
| Executor.StartRefusalReads | app/workflows/router.py:45-84 | each answer of the run handler with its own cause, the earlier guards passed |
| Executor.ResumeRefusalReads | app/workflows/router.py:160-223 | each answer of the resume handler with its own cause, the earlier guards passed |
| Executor.OrderByIsTheTable | app/workflows/router.py:190-194 | rows indexed 0, 1, 2, ... have one ordering by step_index |
| Executor.OthersLeaveTheRun | app/workflows/executor.py:74-77 | what other handlers do meanwhile leaves a driven run untouched |
| Agents.FirstMatch | app/departments/base/agent.py:75-81 | the first rule that fires, and none exactly when no rule fires |
| Agents.FiresReads | app/departments/base/agent.py:75-80 | a rule fires if and only if "*" is among its keywords or a keyword stands somewhere in the text, letter by letter in either case |
| Agents.EscalationReads | app/departments/executive_office/agent.py:28-33 | the first rule that fires decides a data-driven agent; the executive office goes by its two flags, the incident first |
| Agents.InvokeEscalatesAtLeastAsMuch | app/api/v1/departments_router.py:113 | a response that escalates as a workflow step escalates in a single invoke, by a rule at the same or an earlier position |
| Agents.InvokeFiresExactly | app/workflows/executor.py:98-114 | with newline-free keywords a rule fires on prompt, newline, response exactly when it fires on one of the two |
| Rbac.PermittedStays | app/auth/rbac.py:37-44 | a permission check that passed keeps passing as grants grow |
| Rbac.PermissionService.RequirePermission | app/auth/rbac.py:37-44 | denied if and only if the user is neither administrator nor owner and no role of theirs lists the code |
| Rbac.GrantReaches | app/permissions/service.py:83-86 | granting a code to a role admits exactly the old holders and that role's members |
| Rbac.PermissionService.EnsureCatalogSeeded | app/permissions/service.py:27-39 | the catalog gains exactly the missing codes and commits only if there were any |
| Rbac.PermissionService.AssignPermissionToRole | app/permissions/service.py:66-91 | outcome in the order of the checks, the role lost if seeding committed and the inherited settings do not admit it; the one grant made, nothing taken away, other tenants' roles untouched |
| Rbac.PermissionService.AssignRoleToUser | app/permissions/service.py:102-125 | likewise for a user's roles |
| MemoryLimiter.InMemoryRateLimiter.Check | app/ratelimit/limiter.py:64-78 | after any interleaving each bucket is the fold over its own key's calls, and each answer the one those calls alone give |
| MemoryLimiter.DecisionIsTheBudget | app/ratelimit/limiter.py:67-78 | a call falls into a window that began at one of the key's calls; it is allowed if and only if fewer than `limit` calls were accepted there before it, and is told exactly how many are left |
| MemoryLimiter.OtherKeysDoNotMatter | app/ratelimit/limiter.py:67-77 | deleting all other keys' calls changes none of a key's decisions |
| MemoryLimiter.StepStaysBounded | app/ratelimit/limiter.py:67-78 | one more call keeps every interval bound, because a window's anchor is always accepted |
| MemoryLimiter.AnchoredBound | app/ratelimit/limiter.py:67-78 | every window ever opened accepts at most the limit |
| MemoryLimiter.SlidingBound | app/ratelimit/limiter.py:48-58 | no half-open interval of window length accepts more than 2 * limit - 1 |
| MemoryLimiter.InMemoryRateLimiter.BoundPerKey | app/ratelimit/limiter.py:61-78 | the same for any key over everything the object has decided, all keys interleaved |
| MemoryLimiter.SlidingBoundIsAttained | app/ratelimit/limiter.py:48-58 | for every limit some history accepts exactly that many |
| RedisLimiter.RedisRateLimiter.Check | app/ratelimit/limiter.py:96-110 | among concurrent workers, one INCR in the aligned window the call began in decides it; punctual, it accepts exactly the first `limit` hits of its window and reports the budget left |
| RedisLimiter.StepKeepsInv | app/ratelimit/limiter.py:96-106 | every stamp, INCR, EXPIRE, exit and tick keeps each counter equal to its window's hits and its expiry past the window |
| RedisLimiter.LiveWindowIsNeverReset | app/ratelimit/limiter.py:101-106 | while a window lasts its counter is alive and holds all of its hits |
| RedisLimiter.AlignedBound | app/ratelimit/limiter.py:108-110 | each aligned window accepts exactly its first `limit` requests, over all workers |
| RedisLimiter.SlidingBound | app/ratelimit/limiter.py:48-58 | no half-open interval of window length accepts more than 2 * limit |
| RedisLimiter.SlidingBoundIsAttained | app/ratelimit/limiter.py:48-58 | for every limit and window some punctual history accepts exactly that many |
| RedisLimiter.UnbrokenKeepsTheLimit | app/ratelimit/limiter.py:96-110 | without assuming punctuality: if every INCR found its window unhit or its key still held, each window accepts exactly its first `limit` hits |
| RedisLimiter.PunctualIsUnbroken | app/ratelimit/limiter.py:97-106 | punctual histories are of that kind |
| RedisLimiter.UnbrokenExactly | app/ratelimit/limiter.py:101-106 | every counter is right throughout a history if and only if it is of that kind |
| RedisLimiter.LimitHoldsExactly | app/ratelimit/limiter.py:96-110 | for every limit, interleaving and timing, a window has accepted at most the limit if and only if it has had no more hits than that or each of its INCRs found it unhit or its key still held |
| RedisLimiter.LimitOfOneExactly | app/ratelimit/limiter.py:96-110 | with a limit of one, all windows keep it if and only if the whole history is of that kind |
| RedisLimiter.IncrStaysExactWhileLive | app/ratelimit/limiter.py:101-106 | the single step: the count stays exact if and only if the window had no hit or Redis still holds its key; otherwise it restarts at one |
| RedisLimiter.LateIncrExceedsTheLimit | app/ratelimit/limiter.py:97-106 | for every limit and window some history with one late INCR accepts limit + 1 requests of one window |
| LimiterKeys.BudgetKeyInjective | app/ratelimit/middleware.py:21 | with colon-free tenant and user ids no two budgets share a key |
| LimiterKeys.OtherBudgetsDoNotMatter | app/ratelimit/middleware.py:13-23 | with such ids a budget's decisions in memory are those of a history with every other budget's requests deleted |
| LimiterKeys.AloneExactly | app/ratelimit/middleware.py:21 | for a colon-free scope a budget has its key to itself if and only if neither id contains a colon |
| LimiterKeys.ColonsCollide | app/ratelimit/middleware.py:21 | whatever the scope, an id with a colon shares its key with another budget |
| LimiterKeys.RedisKeyInjective | app/ratelimit/limiter.py:99 | a Redis counter belongs to one budget key and one window |
| LimiterKeys.BudgetKeyReads | app/ratelimit/middleware.py:21 | the key spells tenant, user and scope in this order with a colon between |
| LimiterKeys.RedisKeyReads | app/ratelimit/limiter.py:99 | the Redis key spells its prefix, the budget key and the window's start in decimal digits |
| Base64Url.EncodeShape | app/core/security.py:40-46 | encoded text is pure alphabet, never of length 1 modulo 4, and the computed padding restores exactly what was stripped |
| Base64Url.RoundTrip | app/core/security.py:40-46 | decoding an encoding gives back the bytes, for every byte sequence |
| Base64Url.AlphabetTextsDecodeExactly | app/core/security.py:44-46 | text over the alphabet decodes exactly when its length is not 1 modulo 4 |
| Base64Url.CharsAreTheTable | app/core/security.py:40-41 | the encoder's characters are Table 2 of section 5 of RFC 4648, in order |
| Base64Url.ValuesAreTheTable | app/core/security.py:44-46 | the decoder reads that table back, '+' and '/' as well, and no other character |
| Base64Url.EncodeSpellsTheBytes | app/core/security.py:40-41 | each three bytes become the four 6-bit digits of their 24-bit number, one or two last bytes its first two or three digits |
| Token.SplitThree | app/core/security.py:74 | three dot-free segments are recovered from the serialisation |
| Token.TokenRoundTrip | app/core/security.py:49-97 | a created token decodes to exactly the merged claims until `exp` and to None after it |
| Token.TokenLifetime | app/core/security.py:55 | without an overriding `exp` a token lives for the configured minutes from the issuing second |
| Token.PayloadReads | app/core/security.py:52-59 | until it expires a created token is answered with the payload that has the subject under sub, the tenant under tenant_id, exp and iat from the two clock readings, each unless an extra replaces it, every extra, and no other key |
| Token.HeaderReads | app/core/security.py:51 | the first segment decodes to the HS256 JWT header |
| Token.ExpiryDecides | app/core/security.py:94-97 | a signed payload is accepted if and only if its exp, or 0 without one, is not before now; a payload that is no object, or an exp that is no number, raises |
| Token.AcceptedTokensAreSigned | app/core/security.py:71-97 | an accepted token is three segments whose last decodes to the HMAC of the first two, with an unexpired payload |
| Session.ScopedStatement | alembic/versions/e5f6a7b8c9d0_rls_platform_admin_bypass.py:51-59 | in tenant scope a statement's answer depends on that tenant's rows alone and changes nobody else's |
| Session.PolicyReads | alembic/versions/e5f6a7b8c9d0_rls_platform_admin_bypass.py:51-59 | a row is admitted if and only if it is the set tenant's, or the administrator flag is on |
| Session.UpdateReads | alembic/versions/e5f6a7b8c9d0_rls_platform_admin_bypass.py:51-59 | an update changes exactly the rows that its WHERE matches and the policy shows, and is rejected if and only if one would leave the policy |
| Session.DeleteReads | alembic/versions/e5f6a7b8c9d0_rls_platform_admin_bypass.py:51-59 | a delete takes exactly the rows that its WHERE matches and the policy shows |
| Session.EndOfTransaction | app/core/database.py:59-77 | a commit keeps the changes and drops the settings, a rejected statement drops both, nothing else touches what is committed |
| Session.TenantSeparation | app/core/database.py:59-77 | the same for whole adaptive handlers that scope the session after every commit, from any inherited settings |
| Session.ScopedHandlerReads | app/core/database.py:59-77 | its premise, statement by statement: each one that touches rows comes after the tenant was set, with no commit, rejection or other context in between |
| Session.DbSession.RecordAudit | app/audit/service.py:35-45 | never rejected, whatever happened on the session before, and adds exactly its own row to what was pending |
| Session.RecordAuditIsScoped | app/audit/service.py:35-45 | its statements meet the premise of tenant separation on any connection |
| Session.EscalationRereadsUnscoped | app/workflows/executor.py:116-132 | the run is found after the approval's commit if and only if the inherited settings admit it; scoping again would find it |
| Session.FreshConnectionLosesTheRun | app/workflows/executor.py:116-132 | on a connection with no inherited settings it is not found |
| Session.RoleLookupAfterSeeding | app/permissions/service.py:67-73 | the role is found if and only if no required code was missing from the catalog or the inherited settings admit it |
| AuditPurge.AuditLog.Purge | scripts/purge_audit_logs.py:56-91 | all or nothing over what others have committed when the table is locked: a row goes if and only if it is older than the days given and its action does not begin with "audit.purge"; the two records come last, the second with the number deleted; the trigger is back, and rows ever inserted equal rows present plus deletions reported |
| AuditPurge.AuditLog.TryDelete | alembic/versions/f6a7b8c9d0e1_audit_log_immutability.py:39-54 | a delete raises and changes nothing, or removes what it matches, as the trigger decides; in a valid state it never removes a row |
| AuditPurge.TriggerDecides | alembic/versions/f6a7b8c9d0e1_audit_log_immutability.py:39-54 | a delete is refused if and only if the trigger is installed and a row matches; without it exactly the matching rows go |
| AuditPurge.KeptEffects | scripts/purge_audit_logs.py:70-75 | the delete removes exactly the old rows that are not purge records, and loses no reported count |
| AuditPurge.PurgeEffects | scripts/purge_audit_logs.py:61-86 | over a purge, rows plus reported deletions grow by the two records it writes |
| AuditPurge.DryRunCounts | scripts/purge_audit_logs.py:47-53 | the dry run's count is the deletions plus the old purge records, equal to the deletions if and only if there are none |
| AuditPurge.NewRecordsStay | scripts/purge_audit_logs.py:64-79 | the committed purge ends in its two records, the second counting the rows that went, which are exactly the old ones that are not purge records |
| AuditPurge.AuditLog.DryRun | scripts/purge_audit_logs.py:47-53 | the number of rows older than the days given, whatever their action |
| AuditPurge.OldPurgeRecordIsAnnounced | scripts/purge_audit_logs.py:47-73 | a table of one old purge record: one row announced, none deleted |
| Cosine.CauchySchwarz | app/knowledge/vector_store.py:28-30 | the square of the dot product is at most the product of the squared norms |
| Cosine.SimilarityIsBounded | app/knowledge/vector_store.py:25-33 | a score exists exactly for equal dimensions and lies in [-1, 1] |
| Cosine.SimilaritySymmetric | app/knowledge/vector_store.py:25-33 | the score is symmetric, errors included |
| Cosine.SimilarityIgnoresScale | app/knowledge/vector_store.py:25-33 | scaling either vector by a positive constant changes nothing |
| Cosine.DotPicks | app/knowledge/vector_store.py:28 | the product with a unit vector is that coordinate |
| Cosine.DotIsLinear | app/knowledge/vector_store.py:28 | the product is linear in its second vector, which with the unit vectors makes it the sum of the coordinate products |
| Cosine.ScoreReads | app/knowledge/vector_store.py:25-33 | vectors of equal dimension have a score; times both lengths it is the dot product, and it is 0 if one of them is zero |
| Cosine.ScoreIsExtremeExactly | app/knowledge/vector_store.py:33 | the score of two non-zero vectors is 1 if and only if one is a positive multiple of the other, and -1 if and only if a negative one |
| TopK.SortIsTheStableOrder | app/knowledge/vector_store.py:55 | the sort's result is the one descending sequence that lists the hits of every score in their original order |
| TopK.TopKMemory | app/knowledge/vector_store.py:43-56 | an error exactly when a scoped row has another dimension; otherwise Python's slice of the sorted scoped rows, negative k included |
| TopK.TopKIsTop | app/knowledge/vector_store.py:55-56 | min(k, m) scoped rows, highest first, none left out scoring above one included, ties in order |
| TopK.BestIsUnique | app/knowledge/vector_store.py:77-78 | however ties are broken, the scores of the best n are determined |
| TopK.Reassociate | app/knowledge/vector_store.py:85-97 | the two dictionaries and the pass over the ranking pair each fetched id with the last chunk and score of that id |
| TopK.PairingIsFaithful | app/knowledge/vector_store.py:88-97 | with distinct ids, all fetched, nothing is lost and every row keeps its own chunk and score |
| TopKAgreement.PathsAgreeExactly | app/knowledge/vector_store.py:43-97 | for every k, department, tie order and fetch order both searches return the same scores if and only if no scoped row has another dimension and each row the ranking query does not see, or grades as not a number, is reached by as many numbers as come back |
| TopKAgreement.BothRaise | app/knowledge/vector_store.py:26-27 | where the ranking query fails over a dimension the in-memory search does too |
| TopKAgreement.PathsAgree | app/knowledge/vector_store.py:59-97 | in particular with no scoped row ungraded, and then every hit is a scoped row with its own similarity |
| TopKAgreement.MemoryHitsRead | app/knowledge/vector_store.py:43-56 | hits are rows of the tenant and department asked for, each with its own similarity, at most k, falling; a row that is missing scores no higher than any of k that are there |
| TopKAgreement.FirstHitPointsTheQuerysWay | app/knowledge/vector_store.py:53-56 | if some row asked for is a positive multiple of the query, the first hit is one too, with score 1 |
| TopKAgreement.DatabaseHitsRead | app/knowledge/vector_store.py:69-97 | at most k hits, all rows of the tenant and department asked for with a vector, each number its own similarity |
| TopKAgreement.DatabaseHits | app/knowledge/vector_store.py:80-97 | the database search returns the best of the rows it can grade, then zero vectors, each chunk with its own grade, after re-association |
| TopKAgreement.UnindexedRowIsLost | app/knowledge/vector_store.py:62-75 | a table of one row without a vector, or of another department under the empty filter: found in memory, lost in the database |
| TopKAgreement.ZeroVectorHasNoGrade | app/knowledge/vector_store.py:31-32 | a table of one zero vector: 0.0 in memory, not a number in the database |
| TopKAgreement.BestOfPartExactly | app/knowledge/vector_store.py:77-78 | the best of a part are the best of the whole if and only if they are enough and nothing left out beats them |
| TopKAgreement.NothingIsOmittedExactly | app/knowledge/vector_store.py:62-78 | for every k and department as many rows come back as in memory if and only if k rows are indexed or no scoped row is unindexed |

## Left out

- The timestamps completed_at, decided_at and created_at, and approval titles and descriptions: no handler modelled here reads them back.
- StaleResume.StaleResumeIsSafeExactly: exactly two handlers; a third one reading the run during their race is not modelled.
- RedisLimiter.SlidingBound: an accepted request is counted at the time its INCR landed, not when its caller was answered.
- RedisLimiter.RedisRateLimiter.Check: the Redis server's key expiry is an exact comparison with the shared clock; limit and window are fixed per limiter, as the one caller has them.
- Session.TenantSeparation: settings are those of one connection; a rejected statement is modelled as the rollback its session ends in.
- AuditPurge.AuditLog.TryDelete: UPDATE and TRUNCATE on the audit table (the row trigger treats UPDATE alike and does not see TRUNCATE).
- Executor.Platform.DecideApproval: the decision text arrives already trimmed and lower-cased, and the approval.* audit row that follows is left to the session model.
- Executor.Platform.RunWorkflow: a queued run is driven by a Celery worker calling `RunWorkflowFromStep`; redelivery of its task would be a second driver and is outside the one-driver assumption.
- TopKAgreement.PathsAgreeExactly: a negative k, which Postgres rejects as a LIMIT; approximate HNSW search and floating-point rounding.
- The str.format parsing of prompt templates: a template is already its pieces, and stray braces are not modelled.
- HTTP parsing and routing, response bodies, the HTML admin UI and CSRF: branch-level facts only.
- AI providers, the gateway's fallback loop and the routing file: the loop would only add a first-success fact.
- Celery, the event bus, configuration loading and role provisioning: external services or thin wrappers.
- Password hashing, account registration and how a request's user is loaded from its token.
- SQLite, where the tenant context is a no-op and only the queries' own filters apply.
- Dashboards, platform views, KPI, deal and knowledge ingestion endpoints: easy members only.
