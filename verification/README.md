# Verification of the content-production backend

A Dafny model of the parts of the backend that hold state or arithmetic, with proofs about whole runs of it.
`dafny verify dfyconfig.toml` checks everything.

**Content runs** (`optimistic_lock.dfy`, `content_run.dfy`, `content_worker.dfy`, `content_protocol.dfy`). A run is
one row with a version column. An API action, or any of the worker's short transactions, selects the row, changes
attributes, and flushes: no statement when nothing changed, otherwise an UPDATE of the changed columns guarded by the
version that was read. Any number of API requests and worker executions interleave, each transaction in two steps, and
every worker step may raise. The model keeps the whole history of the row, with the cause of each version.
`content_rules.dfy` says action by action, without the code's tables, when a request is accepted and what it writes,
and `worker_outcomes.dfy` what an execution's outcome means.

**Human tasks** (`human_task.dfy`, `task_rules.dfy`, `task_protocol.dfy`). Claim, reassign, submit, approve, reject
and assign over the same kind of row, with the authorization engine in front.

**Authorization** (`authorization.dfy`, `authorization_rules.dfy`, `action_gate.dfy`). The default-deny engine, the
policy built from role rows, and the two places of the board that ask it: the actions offered with a row and the check
made when one is performed.

**Tokens** (`revocations.dfy`, `jwt_tokens.dfy`, `token_protocol.dfy`, `token_answers.dfy`, `store_comparison.dfy`).
The token service over plain sets and over Redis keys with a TTL, rotation in two phases, whole runs of either and of
both side by side, time in integer microseconds (`clock.dfy`). Signing is perfect: a presented token is genuine
exactly when the service issued it.

**Tenant isolation** (`tenancy.dfy`, `tenancy_history.dfy`). Pooled connections that begin transactions, set the
tenant for the transaction, run statements under row-level security, and commit or roll back; uncommitted writes are
hidden from others and lock.

**Login lockout** (`lockout.dfy`, `lockout_runs.dfy`), and the pure parts of the repository layer: ETags and If-Match
(`etag.dfy`), LIKE escaping and the collect action (`like.dfy`, `collecting.dfy`), quota periods over the Gregorian
calendar (`periods.dfy`), transition tables (`state_machine.dfy`).

Code that changes objects step by step is a class with methods, each tied to a function of the old state; code that
computes values is functions. The protocols are state machines over those functions. Clock readings, fresh ids, the
generated text, the presence of related rows and the authorizer's verdict are parameters.

## What the proofs say about the code

- A cancelled run stays cancelled exactly when no worker execution can still write. An execution that has passed its
  initial load can bring the run back, because `_set_status` does not look at the status again
  (`ContentProtocol.CancelledStaysIff`; a run in which it happens is `ContentProtocol.CancelUndone`). For a paused run an
  execution that has not even loaded it is enough, because only COMPLETED and CANCELLED make the worker skip
  (`ContentProtocol.PausedStaysIff`, `ContentProtocol.PauseUndone`).
- The history of a run leaves the state graph of `docs/02-workflow-state-machine.md` section 4.2 exactly in these writes:
  a rerun of a COMPLETED run, any status a worker sets over COMPLETED or CANCELLED, and COMPLETED or FAILED set by a
  worker over a run that is not RUNNING (`ContentProtocol.HistoryFollowsDesignIff`). The table of request transitions
  also has a cancel from DRAFT that the graph lacks (`StateMachine.PlansFollowDesignExcept`), but no run made by
  `create_content_run` is ever DRAFT. The model follows the code.
- The Redis store may forget a revocation already in the last second of the token it was made from, so the clock-skew
  allowance after the expiry is not covered. Over Redis the service answers as over plain sets exactly in the runs that
  never use a token all of whose keys have lapsed (`StoreComparison.RedisAgreesIff`). Four concrete runs do. A refresh
  token that has been rotated can be rotated again once the deadline of that rotation has passed: by a rotation that is
  verified in the last second before its expiry or in the skew after it (`TokenProtocol.RotatesAgainIff`,
  `StoreComparison.ReplayInSkew`), or at any later time by one that was verified earlier and is completed then, since the
  completion does not look at the expiry again (`StoreComparison.ReplayLongAfter`),
  although the comment at the head of `redis_revocations.py` calls replay impossible. A session revoked between the two
  phases of a rotation stays revoked in memory for ever, but in Redis the pair issued by that rotation outlives the key
  (`StoreComparison.HalfDoneRotationOutlivesKey`). A second logout with a refresh token that was rotated away shortens
  the session key of the first, after which the newest refresh token passes again
  (`StoreComparison.SecondLogoutShortensKey`). `TokenProtocol.RefusedIff` says exactly until when a token is refused.
- An If-Match of `*` is answered with 428 like a missing one, where section 13.1.1 of RFC 9110 lets it match any
  existing resource (`Etag.WildcardIsNoPrecondition`).
- The comment of `_permission_codes` speaks of a union over several roles; its query joins the one `role_id` of the
  membership. The union law is proved for lists of codes (`Authorization.UnionAllowsEither`).
- Settings accept a lockout window that is not positive. Over Redis a lock then still lasts a second, but in memory it
  never holds, and every password of every run is checked (`Lockout.PutLockHoldsIff`, `Lockout.NoWindowNoBound`).
- A ROLLING_30D period ends at the instant it is asked for, so as a half-open interval it does not contain it
  (`Periods.PeriodContainsNow`).

## Model

| member | source | states |
|---|---|---|
| ContentProtocol.CancelledStaysIff | apps/worker/tasks.py:101-133 | In every reachable state where the run is CANCELLED: it is CANCELLED in every continuation, over all interleavings of requests and executions, if and only if no execution can still write (past its load, not ended, and not holding a row whose stale flush would end it) |
| ContentProtocol.PausedStaysIff | apps/worker/tasks.py:101-107 | In every reachable state where the run is PAUSED: it stays PAUSED in every continuation without a requested transition or a new execution if and only if no execution can still write, where one that has yet to load the run can |
| ContentProtocol.CancelledBeforeLoadStays | apps/worker/tasks.py:101-105 | A run cancelled while every execution has yet to load it or has ended stays cancelled whatever happens next |
| ContentProtocol.CancelUndone | apps/worker/tasks.py:55-66 | A concrete run: cancelled after the execution has loaded it, and RUNNING again two of its turns later |
| ContentProtocol.PauseUndone | apps/worker/tasks.py:101-107 | A concrete run: paused before the execution has done anything, and RUNNING again three of its turns later |
| ContentProtocol.HistoryFollowsDesignIff | apps/worker/tasks.py:55-66 | In every run, every change of status is an arrow of the documented state graph, except exactly where it is a rerun of COMPLETED, or a worker's write over COMPLETED or CANCELLED, or a worker's COMPLETED or FAILED over a status other than RUNNING |
| ContentProtocol.ExecutionsEnd | apps/worker/tasks.py:89-133 | Under every interleaving and whatever raises, an execution takes at most eleven turns besides its wait for the model, and has ended when it has taken them |
| WorkerOutcomes.OutcomesAreTrue | apps/worker/tasks.py:101-133 | In every reachable state an execution that reports completed or failed has that status in its own name in the history, and one that skipped found the run COMPLETED or CANCELLED |
| WorkerOutcomes.TurnsByName | apps/worker/tasks.py:101-133 | Where each turn of an execution leads, for every position, stored row and fault |
| ContentProtocol.ReachableRuns | apps/worker/tasks.py:41-66 | From creation, under all interleavings and faults: COMPLETED implies a stored text, label and tone are the display entry of the status, and the status is never DRAFT or WAITING_HUMAN |
| ContentProtocol.HistoryIsSerial | src/aipy/shared/db/mixins.py:47-61 | Versions count up by one from 0, every version differs from the one before, and each is what its cause makes of exactly that one: no interleaving loses an update |
| ContentProtocol.WinnerCommitted | apps/api/repositories.py:378-386 | A caller told success for pause, resume, rerun or cancel holds the version right after the one its If-Match names, planned on that version, and was shown the row that was stored |
| ContentProtocol.OneWinnerPerVersion | apps/api/repositories.py:264-272 | Of any number of concurrent callers with the same If-Match on those actions at most one succeeds |
| ContentProtocol.WinnersLandByName | src/aipy/modules/content/state_machine.py:45-67 | In every reachable state a winning resume or rerun committed RUNNING, a pause PAUSED and a cancel CANCELLED, on the version its If-Match names, with everything else as the action intends |
| ContentProtocol.HistoryByName | apps/api/repositories.py:1044-1048 | Every version past the first was made by an accepted request and is what its action intends, or carries a worker's status with its display and actor, or a text and nothing else |
| ContentProtocol.HistoryStarts | apps/api/repositories.py:681-703 | The first version of every run: RUNNING with its display, no text, no export, version 0, by its creator |
| ContentRules.FinishesIff | apps/api/repositories.py:1022-1050 | For every request, row read and row stored: Ok if and only if permitted, If-Match at the version read, a status the action may start from, and the row unmoved or nothing to change; then shown and stored as intended, otherwise the row stays |
| ContentRules.PlansAsIntended | apps/api/repositories.py:1120-1145 | The planned fields of an accepted request are exactly those its action intends, export and collect and the material link included |
| ContentRules.WritesItsColumns | apps/api/repositories.py:378-386 | A write sets the columns it changes and leaves the others as stored |
| ContentRules.RefusedAs | apps/api/repositories.py:1022-1042 | Every refusal with its reason, in the order the code gives them |
| ContentRules.MissingRun | apps/api/repositories.py:1030-1032 | What is answered for a run that is not there |
| ContentProtocol.StepKeeps | apps/worker/tasks.py:107-133 | Every step of every participant keeps the invariant over history, open requests and worker positions, and only extends the history |
| ContentProtocol.TurnsRefineWorker | apps/worker/tasks.py:89-133 | The turns of an execution in the protocol leave exactly the row and outcome of the worker's code, whatever others do to the row before each of them and whichever of them raise |
| ContentWorker.RunContentWorkflow | apps/worker/tasks.py:89-133 | The worker's transactions in order, with others changing or removing the row before each of its eleven steps, and any of them raising: not found, skipped when terminal, RUNNING, then text and COMPLETED, or FAILED from the except branch; stale flushes and exceptions outside the try end it |
| ContentWorker.LoneWorkerFinishes | apps/worker/tasks.py:107-133 | Alone on an unfinished run it ends COMPLETED with the generated text or FAILED with the old one, display in step, version up by 1 to 3 |
| ContentWorker.SetStatus | apps/worker/tasks.py:55-66 | A status write is one transaction of two steps: nothing when the row is gone at the select, a guarded flush otherwise, raising when the row moved or went in between |
| ContentRuns.ApplyContentAction | apps/api/repositories.py:1022-1050 | From the selected row, the order of refusals (unsupported, precondition, not found, version, permission, transition), then the guarded flush, against any stored row |
| ContentRuns.AssignAction | apps/api/repositories.py:1120-1145 | The same checks and assignments for export, collect and the material link; a refused request leaves the object as loaded |
| ContentRuns.ContentRunTable.Flush | apps/api/repositories.py:378-386 | No statement and no new version when nothing changed; otherwise changed columns only, version plus one, and stale when the version moved |
| ContentRuns.TransitionWrites | apps/api/repositories.py:1034-1050 | An accepted transition was read at the If-Match version, moves the status out of a state other than CANCELLED to PAUSED, RUNNING or CANCELLED, with display in step and the text untouched |
| ContentRuns.SideEffectsKeepStatus | apps/api/repositories.py:1139-1145 | Export, collect and linking leave status, display and text alone |
| StateMachine.PlansFollowDesignExcept | src/aipy/modules/content/state_machine.py:45-67 | A transition planned for a request is an arrow of the documented state graph except rerun from COMPLETED and cancel from DRAFT |
| StateMachine.PlansMoveTheRun | src/aipy/modules/content/state_machine.py:131-140 | A planned transition changes the status and never leaves CANCELLED |
| TaskProtocol.ReachableTasks | apps/api/repositories.py:1262-1367 | From a fresh task under every interleaving and any role rows: a decision exactly when COMPLETED, CLAIMED has assignee and lease, OPEN has an assignee exactly when it has a lease, COMPLETED has no lease, and APPROVE was given by somebody other than the creator |
| TaskProtocol.CompletedIsFinal | src/aipy/modules/content/state_machine.py:69-85 | A completed task keeps all fields and its version for ever, whatever requests were in flight |
| TaskProtocol.HistoryIsSerial | src/aipy/shared/db/mixins.py:47-61 | Each version of a task is what one finished request planned on exactly the version before it |
| TaskProtocol.HolderIsEntitled | apps/api/repositories.py:1296-1307 | In every reachable state the holder of a CLAIMED task got it by a permitted claim of their own or a permitted assignment to a member, with a lease of two hours from then |
| TaskProtocol.OpenHolderIsNamed | apps/api/repositories.py:1302-1304 | In every reachable state an OPEN task past its first version was reassigned last by a permitted request, and has exactly the assignee that request named with a lease of two hours from then, or nobody and no lease |
| TaskProtocol.ToldByName | apps/api/repositories.py:1286-1308 | Whoever is told Ok was accepted on the version their If-Match names and is shown what the action intends; after a reassign or assign, their own target as assignee |
| TaskProtocol.HistoryByName | apps/api/repositories.py:1286-1307 | Every version past the first was made by an accepted request and is what its action intends |
| TaskRules.FinishesIff | apps/api/repositories.py:1281-1308 | For every request, row read and row stored: Ok if and only if permitted, If-Match at the version read, a status the action may start from, for assign an active member as target, and the row unmoved or nothing to change; then shown and stored as intended, otherwise the row stays |
| TaskRules.PlansAsIntended | apps/api/repositories.py:1354-1366 | The planned fields of an accepted request are exactly those its action intends, assign included |
| TaskRules.WritesItsColumns | apps/api/repositories.py:378-386 | A write sets the columns it changes and leaves the others as stored |
| TaskRules.RefusedAs | apps/api/repositories.py:1335-1359 | Every refusal with its reason, in the order the code gives them |
| TaskRules.MissingTask | apps/api/repositories.py:1282-1284 | What is answered for a task that is not there |
| TaskRules.PermittedIff | apps/api/repositories.py:275-302 | Who may act on a task: an active member of an active tenant whose codes list the action's, and for approve not its creator |
| TaskProtocol.VerdictHasAuthor | src/aipy/modules/content/state_machine.py:81-86 | In every reachable state a COMPLETED task was completed by a permitted request of the actor it records, by the action its decision names, and submit only from CLAIMED |
| TaskProtocol.WinnerCommitted | apps/api/repositories.py:1286-1308 | Success of claim, submit, approve or reject means the version after the If-Match one, planned on it, and shown as stored |
| TaskProtocol.OneWinnerPerVersion | apps/api/repositories.py:264-272 | Of any number of concurrent callers with the same If-Match on those actions at most one succeeds |
| HumanTasks.ApplyHumanTaskAction | apps/api/repositories.py:1275-1308 | From the selected row, the order of refusals, the assignments of each action and the guarded flush, against any stored row |
| HumanTasks.AssignTask | apps/api/repositories.py:1335-1367 | The same for assign: target first, membership before version, only OPEN or CLAIMED |
| HumanTasks.PlanKeepsTaskOk | apps/api/repositories.py:1288-1307 | A planned write keeps the shape of a task and is never planned on a COMPLETED one |
| HumanTasks.EngineRespectsDuties | src/aipy/modules/authorization/domain/models.py:91-97 | Whatever the role rows, the engine lets nobody approve a task they created |
| Authorization.BuildGrants | src/aipy/modules/authorization/infrastructure/policy_repository.py:115-125 | The loop yields one tenant-wide grant per distinct well-formed code, in order of first occurrence |
| Authorization.GrantsFor | src/aipy/modules/authorization/infrastructure/policy_repository.py:115-125 | Exactly the well-formed codes listed are granted, each tenant-wide |
| Authorization.BuiltPolicyVerdict | src/aipy/modules/authorization/service.py:23-57 | On a policy built from role rows, allowed if and only if: well-formed listed code, same tenant, matching resource type, active tenant, membership and user, no workflow state, no duty conflict |
| AuthorizationRules.DecidedAs | src/aipy/modules/authorization/service.py:23-57 | For arbitrary policies: the decision with the first reason that applies, each condition spelled out over grants, scopes, state rules and duties |
| AuthorizationRules.CoversIff | src/aipy/modules/authorization/service.py:121-148 | What each scope covers, with the subject's own workspaces and teams where a scope names none |
| AuthorizationRules.ConflictedIff | src/aipy/modules/authorization/service.py:88-107 | The four duties and exactly when an actor violates one |
| AuthorizationRules.WordCharacters | src/aipy/modules/authorization/domain/models.py:11 | The alphabet of permission codes |
| Authorization.VerdictIgnoresListShape | src/aipy/modules/authorization/infrastructure/policy_repository.py:107-125 | Order, duplicates and malformed codes do not affect the verdict |
| Authorization.UnionAllowsEither | src/aipy/modules/authorization/infrastructure/policy_repository.py:86-112 | The union of two code lists allows exactly what either allows |
| Authorization.MoreGrantsKeepAllow | src/aipy/modules/authorization/service.py:45-57 | For arbitrary policies, more grants or more scopes never turn allow into deny |
| Authorization.ApprovalNeedsAnother | src/aipy/modules/authorization/service.py:88-107 | An allowed approval is never by the creator under a built policy |
| Authorization.CodesSplit | src/aipy/modules/authorization/domain/models.py:11-32 | Joining two words gives a well-formed code whose halves are the words |
| Authorization.CodesJoin | src/aipy/modules/authorization/domain/models.py:11-32 | Every well-formed code is the join of two words |
| ActionGate.AllowedActions | src/aipy/modules/authorization/service.py:59-69 | The offered actions are exactly the candidates the engine allows |
| ActionGate.OfferedInOrder | apps/api/repositories.py:401-409 | Every candidate is offered or left out where it stands, so the list keeps order and repetitions |
| ActionGate.AcceptedIff | apps/api/repositories.py:275-302 | For every policy, an action is accepted if and only if it is offered, or only the data scope stopped the offer, a grant for it has the ASSIGNED scope and the row is assigned to the caller |
| ActionGate.OfferedIsAccepted | apps/api/repositories.py:389-409 | Every offered action passes the permission check on the same row |
| ActionGate.BuiltPoliciesOfferAll | apps/api/repositories.py:389-409 | Under policies built from role rows, offered and accepted candidates are the same |
| ActionGate.BoardVerdict | apps/api/repositories.py:275-302 | The check on a row for a member with role rows comes down to: active all round, code listed, no approval of what one created |
| ActionGate.GateContexts | apps/api/repositories.py:289-299 | What the engine is told about a row by the check and by the offer |
| TokenProtocol.OneLiveRefreshPerSession | src/aipy/modules/identity/infrastructure/jwt_tokens.py:84-104 | With the in-memory store, in every reachable state a session has at most one unconsumed refresh token |
| TokenProtocol.RotatesOnce | src/aipy/modules/identity/infrastructure/in_memory_revocations.py:26-30 | With the in-memory store a refresh token rotates successfully at most once in a run, even when several rotations of it were verified |
| TokenProtocol.RotatesAgainIff | src/aipy/modules/identity/infrastructure/redis_revocations.py:44-53 | With either store, a further verified rotation of a rotated token never succeeds in memory, and over Redis succeeds if and only if the deadline of its last rotation has passed |
| TokenProtocol.RevokedSessionStaysDead | src/aipy/modules/identity/infrastructure/jwt_tokens.py:238-242 | With the in-memory store, after a session is revoked no token of it, issued before or after, is accepted again |
| TokenProtocol.RefusedIff | src/aipy/modules/identity/infrastructure/jwt_tokens.py:238-242 | In every reachable state of either store, a genuine token inside its lifetime is refused if and only if the last revocation of its id or the last logout of its session is live: for ever in memory, until its deadline in Redis |
| TokenAnswers.VerifiedIff | src/aipy/modules/identity/infrastructure/jwt_tokens.py:185-219 | In every reachable state of either store a verification succeeds if and only if a login or rotation of the run gave the token out, it is of the kind asked for and inside its lifetime widened by the skew, and the last writes on its id and session are not live; otherwise it is refused with the error of what is wrong |
| TokenAnswers.StartedIff | src/aipy/modules/identity/infrastructure/jwt_tokens.py:84-92 | A rotation passes its first phase if and only if its token is a good refresh token presented with its own identity |
| TokenAnswers.RotatedIff | src/aipy/modules/identity/infrastructure/jwt_tokens.py:94-104 | The second phase gives out a pair for the presented subject if and only if the last write on the token's id is not live |
| TokenAnswers.LoginGives | src/aipy/modules/identity/infrastructure/jwt_tokens.py:43-72 | A login gives out an access token with the subject's scopes and a refresh token without, each with its own id and time to live in whole seconds |
| TokenAnswers.LoggedOutIff | src/aipy/modules/identity/infrastructure/jwt_tokens.py:121-140 | Each logout is accepted if and only if its token was given out, is of its kind and inside its lifetime |
| TokenProtocol.NewestRefreshLastsLongest | src/aipy/modules/identity/infrastructure/jwt_tokens.py:43-72 | With access TTL at most refresh TTL and either store, the newest refresh token of a session has the largest expiry of all tokens ever issued for it |
| TokenProtocol.NewestRevocationHolds | src/aipy/modules/identity/infrastructure/redis_revocations.py:55-57 | After a logout with that token on Redis, whatever follows short of another logout of the session, every token the session had is refused for a minute, and at all times but those between the last second of that token and the end of its skew |
| StoreComparison.RedisAgreesIff | src/aipy/modules/identity/infrastructure/redis_revocations.py:29-57 | For every run: the service over Redis gives answer by answer what it gives over plain sets if and only if the run never uses a token, otherwise good, all of whose keys have lapsed |
| StoreComparison.OwnKeyLapsesLate | src/aipy/modules/identity/infrastructure/redis_revocations.py:22-26 | In every reachable state a lapse of a token's own key shows at a verification only between the token's last second and the end of its skew, and at the completion of a verified rotation only after its last second has begun, with no upper end |
| StoreComparison.CalmRunsAgree | src/aipy/modules/identity/infrastructure/redis_revocations.py:29-57 | So under all settings the answers agree in every run that keeps off final windows and revokes sessions outside a rotation with a refresh token that no token of the session outlasts |
| StoreComparison.HalfDoneRotationOutlivesKey | src/aipy/modules/identity/infrastructure/jwt_tokens.py:94-104 | A concrete run that revokes a session in mid-rotation and ends with different verdicts from the two stores |
| StoreComparison.SecondLogoutShortensKey | src/aipy/modules/identity/infrastructure/redis_revocations.py:55-57 | A concrete run in which a second logout, with an older refresh token, makes the newest one pass again over Redis |
| StoreComparison.ReplayInSkew | src/aipy/modules/identity/infrastructure/redis_revocations.py:44-53 | A concrete run in which a refresh token is verified and rotated again over Redis inside the skew |
| StoreComparison.ReplayLongAfter | src/aipy/modules/identity/infrastructure/jwt_tokens.py:84-104 | A concrete run in which a rotation verified early is completed over Redis long after expiry and skew |
| JwtTokens.VerdictsDifferIff | src/aipy/modules/identity/infrastructure/jwt_tokens.py:214-219 | For a token stored at some instant, the two stores' verdicts differ if and only if the time is between the end of the Redis key and the expiry plus skew |
| JwtTokens.WindowIsShort | src/aipy/modules/identity/infrastructure/redis_revocations.py:22-26 | That window is shorter than the skew plus one second, and empty when the token has at most a minute to live, skew included |
| JwtTokens.RefreshOutlastsAccessIff | src/aipy/modules/identity/infrastructure/jwt_tokens.py:43-66 | After whole-second truncation a pair's refresh token outlasts its access token at every instant exactly when its TTL is no shorter |
| JwtTokens.JwtTokenService.RotateTokenPair | src/aipy/modules/identity/infrastructure/jwt_tokens.py:84-104 | Verify, compare identities, consume atomically at a later clock reading, issue; a refusal changes nothing |
| JwtTokens.JwtTokenService.VerifyToken | src/aipy/modules/identity/infrastructure/jwt_tokens.py:74-82 | Type, expiry, issue time, then revocation of the token or its session, over either store |
| JwtTokens.JwtTokenService.Logout | apps/api/routes/auth.py:171-187 | Revokes the access token and then the session, each only if presented and at its own clock reading, errors suppressed |
| Revocations.RedisTokenRevocations.ConsumeRefreshToken | src/aipy/modules/identity/infrastructure/redis_revocations.py:44-53 | Set if absent with a TTL: succeeds exactly when no live key is there, and otherwise changes nothing |
| Revocations.InMemoryTokenRevocations.ConsumeRefreshToken | src/aipy/modules/identity/infrastructure/in_memory_revocations.py:26-30 | Test and add: succeeds exactly once per id |
| Revocations.DeadlineBounds | src/aipy/modules/identity/infrastructure/redis_revocations.py:22-26 | An entry lasts a minute exactly when its token has a minute or less, and otherwise whole seconds up to the token's last second |
| Lockout.ChecksAreBounded | src/aipy/modules/identity/infrastructure/login_lockout.py:29-37 | For either store and locks that last: in any run of logins for one key none of which succeeds, the failures recorded within a duration number at most max attempts times (whole spans in it plus 2), with the lock looked at before and the failure recorded after the password is hashed |
| Lockout.KeyStep | apps/api/routes/auth.py:104-121 | A wrong password is refused, joins a batch with room, or starts a new one only after the last batch's span |
| Lockout.PutLockHoldsIff | src/aipy/modules/identity/infrastructure/login_lockout.py:67-73 | A lock holds from the moment it is put for every window over Redis, and over memory if and only if the window is positive |
| Lockout.NoWindowNoBound | src/aipy/modules/identity/infrastructure/login_lockout.py:44-47 | Over memory with a window that is not positive, every wrong password of every sequential run is checked |
| Lockout.RedisLags | src/aipy/modules/identity/infrastructure/login_lockout.py:67-74 | Whatever the windows, until memory puts its first lock Redis has put none and its counter is no larger |
| Lockout.MemoryLocksNoLater | src/aipy/modules/identity/infrastructure/login_lockout.py:29-37 | On the same wrong passwords, whatever the windows, whenever Redis has put a lock memory has put one too |
| LockoutRuns.LockedIsEarned | apps/api/routes/auth.py:104-121 | For either store and logins with right and wrong passwords in any order: a key is locked only if at least max attempts wrong passwords were recorded since the last success |
| LockoutRuns.SuccessForgets | apps/api/routes/auth.py:120-121 | After a success every later outcome is that of a key never tried before |
| LockoutRuns.LockLasts | src/aipy/modules/identity/infrastructure/login_lockout.py:33-37 | A lock turns away every login up to its end, none of them prolongs it, and it ends after exactly the span |
| LockoutRuns.FailureCounts | src/aipy/modules/identity/infrastructure/login_lockout.py:31-37 | A wrong password counts one more, and puts a lock if and only if that spends the budget |
| LockoutRuns.RedisForgets | src/aipy/modules/identity/infrastructure/login_lockout.py:68-74 | Over Redis a count lasts until exactly one span after the first failure in it |
| LockoutRuns.SpanIs | src/aipy/modules/identity/infrastructure/login_lockout.py:67-68 | The span is the window in memory, and its whole seconds but at least one in Redis |
| LockoutRuns.ToldIff | apps/api/routes/auth.py:95-121 | Nothing but a lock keeps the right password out, and nothing lets a wrong one in |
| Lockout.InMemoryLoginLockout.AttemptLogin | apps/api/routes/auth.py:104-121 | Check at one clock reading, then record at a later one or reset: the key changes as the one-key automaton says, no other key changes |
| Lockout.RedisLoginLockout.RecordFailure | src/aipy/modules/identity/infrastructure/login_lockout.py:67-74 | Increment, expiry on the first failure only, lock and delete when the budget is spent; no other key changes |
| Tenancy.TenantsRunAlone | src/aipy/shared/db/session.py:57-75 | For arbitrary scopes of all tenants on any number of reused connections, and any interleaving of begins, statements, commits and rollbacks: what one tenant's scopes hear and what becomes of its rows is exactly a run of that tenant alone |
| Tenancy.SettingNeverLeaks | src/aipy/shared/db/session.py:25-40 | However connections are reused, a statement runs under the tenant of its own scope, and a new transaction has none |
| Tenancy.ExecuteIsLocal | migrations/versions/20260724_0002_content_entities.py:50-59 | A statement's answer and its effect on the tenant's rows depend on those rows alone |
| Tenancy.ExecuteSparesOthers | migrations/versions/20260724_0002_content_entities.py:50-59 | No statement under another setting touches a tenant's rows |
| Tenancy.NoTenantNoRows | migrations/versions/20260724_0002_content_entities.py:50-59 | Without a setting no row is seen or written |
| Tenancy.InTenantScope | src/aipy/shared/db/session.py:57-75 | Sets the tenant, runs the body under it, commits on return and rolls back on an exception or a refused statement |
| Tenancy.AloneIsRun | src/aipy/shared/db/session.py:57-75 | That is the run of one connection with one scope and nobody else at work |
| TenancyHistory.CommittedIsLastReturned | src/aipy/shared/db/session.py:57-64 | In every run the committed rows are exactly what the last scope to return saw at its end: nothing of it is lost, and nothing of a scope that raised or was refused is kept |
| TenancyHistory.StepCommits | src/aipy/shared/db/session.py:57-64 | At every step the committed rows change only where a scope returns, and every other connection then sees what that scope saw, but for its own drafts; otherwise its view does not change |
| TenancyHistory.LaterScopeFinds | src/aipy/shared/db/session.py:67-75 | A row inserted or updated by a scope that returned is found by a later query of the same tenant, as long as no scope that returned since saw another version |
| TenancyHistory.IdleSeesCommitted | src/aipy/shared/db/session.py:57-64 | In every reachable state a scope starts from exactly the committed rows |
| TenancyHistory.StepMoves | src/aipy/shared/db/session.py:57-75 | What a connection does next, and with which outcome it ends a scope |
| TenancyHistory.StatementEffects | migrations/versions/20260724_0002_content_entities.py:50-59 | A statement that is let through writes its one row for its own transaction alone; any other changes nothing |
| TenancyHistory.WriteAnswers | migrations/versions/20260724_0002_content_entities.py:50-59 | Whether an insert or update is let through, has no row, is refused or waits |
| TenancyHistory.SelectFinds | migrations/versions/20260724_0002_content_entities.py:50-59 | A query finds exactly the tenant's rows it wants, as they look to the transaction |
| Etag.EtagRoundTrip | apps/api/repositories.py:216-261 | For every code and version, and every table of decimal digits, the printed ETag with any whitespace around it parses back to that version |
| Etag.WeakEtagRoundTrip | apps/api/repositories.py:243-261 | The same with a weak marker and padding after it |
| Etag.SearchVersionExact | apps/api/repositories.py:258-261 | Every string ending in the version suffix, up to a final newline, yields that number |
| Etag.SearchVersionOnly | apps/api/repositories.py:258-261 | Only such strings yield one |
| Etag.WildcardIsNoPrecondition | apps/api/repositories.py:264-266 | A wildcard reads as no precondition, which is refused with 428 at every version |
| Etag.HeadersMean | apps/api/repositories.py:250-261 | What every header with content means, weak or not, with any padding |
| Etag.BlankHeaderIsRefused | apps/api/repositories.py:258-260 | A blank header is refused as unreadable |
| Etag.EtagsAreDistinct | apps/api/repositories.py:219-220 | Two printed ETags are equal only for the same code and version |
| Etag.VersionSuffixFound | apps/api/repositories.py:216 | The version is found in every string that ends in the suffix, also before one final newline |
| Like.EscapeIsOnePass | apps/api/repositories.py:327-330 | The three successive replaces equal one pass that escapes every metacharacter |
| Like.EscapedPrefix | apps/api/repositories.py:327-330 | An escaped term followed by a percent sign matches exactly the texts that start with it |
| Like.SearchFindsSubstrings | apps/api/repositories.py:580-588 | The search pattern matches a text if and only if the text contains the term |
| Like.CaselessSearchFindsSubstrings | apps/api/repositories.py:580-588 | The same up to a per-character case fold, which commutes with escaping |
| Collecting.LinkTable.CollectMaterials | apps/api/repositories.py:1078-1117 | Appends to the links exactly the new ones for the first ten matches |
| Collecting.NewLinksExact | apps/api/repositories.py:1107-1117 | The links added are exactly those to matches not linked before |
| Collecting.QueryTakesFirst | apps/api/repositories.py:1097-1106 | The query takes the first rows selected: those of the front of the library, and later ones only as far as there is room |
| Collecting.CollectLinksMentions | apps/api/repositories.py:1090-1106 | Each added link is to a material of the tenant that mentions brand or title; when fewer than ten do, all are linked |
| Collecting.CollectIsIdempotent | apps/api/repositories.py:1107-1109 | Collecting the same matches again adds nothing |
| Collecting.CollectKeepsLinksUnique | apps/api/repositories.py:1081-1117 | No link is ever duplicated |
| Periods.ThirtyTwoDaysOn | apps/api/repositories.py:2277-2279 | For every year and month of the Gregorian calendar, the first plus 32 days set to day 1 is the first of the next month |
| Periods.CountThenWalk | apps/api/repositories.py:2277-2279 | Numbering dates and walking the calendar day by day are inverse, so adding days is well founded |
| Periods.DaysBeforeYearClosed | apps/api/repositories.py:2277-2279 | The day count agrees with the closed form of leap years for every year |
| Periods.PeriodContainsNow | apps/api/repositories.py:2271-2280 | The half-open period contains the instant it is asked for at if and only if it is not a rolling one |
| Periods.PeriodsTile | apps/api/repositories.py:2271-2280 | The end of a period is the start of the period asked for at that end |
| Periods.SamePeriodIff | apps/api/repositories.py:2271-2280 | Two instants share a period if and only if they share the local day, or the local month |
| Periods.PeriodLengths | apps/api/repositories.py:2271-2280 | A daily period is a day long, a rolling one thirty days up to now, a monthly one as long as the local month |

## Left out

- ContentProtocol.ReachableRuns: export rows, export payloads and material links written in the same transaction as the run are not part of the protocol's state; `updated_at` is not either.
- ContentProtocol.StepKeeps: a commit is one atomic step whose acknowledgement always arrives; the row is never deleted, as no code deletes it (`ContentWorker.RunContentWorkflow` also covers a row that goes). Which API actions hand a run to the worker, a missing broker and redelivery are covered by letting executions appear at any time.
- ContentProtocol.HistoryStarts: the permission check, code and sequence number of `create_content_run` are not modelled.
- ContentRuns.ApplyContentAction: statuses and actions are enumerations with one value for every unknown action; status strings outside the table are excluded by the database.
- HumanTasks.ApplyHumanTaskAction: the membership check of assign is a parameter of the request; reassign does not make one in the source either.
- StoreComparison.RedisAgreesIff: Redis and the service read the same clock, and a key goes at its deadline to the microsecond; like all token claims it takes fresh ids and a clock that does not go back as part of the environment.
- JwtTokens.JwtTokenService.VerifyToken: signatures, issuer, audience and claim syntax are replaced by membership in the set of issued tokens.
- Lockout.ChecksAreBounded: logins for a key are sequential; concurrent requests that pass the lock check before any of them records its failure are not modelled, nor is the lower-casing of the email that makes the key.
- Tenancy.TenantsRunAlone: foreign-key checks, deadlocks and isolation levels above read committed are not modelled; ids of different tenants are disjoint, and `app_user` and the membership self-lookup at login are not among the tables.
- Like.CaselessSearchFindsSubstrings: case folding is per character and leaves the three metacharacters alone; the locale rules of the database are not modelled.
- Periods.PeriodContainsNow: the zone has a fixed offset; daylight saving and the year limits of Python's datetime are not modelled.
- Authorization.BuiltPolicyVerdict: the job-title catalogue behind the fallback is a parameter, and a custom scope may have no dimension although the validator wants one.
- Cookies, cross-origin rules, health probes, page listing, mapping to response objects and the front end: plumbing.
- Password hashing, the model gateway, URL import: foreign calls, replaced by their outcome.
- Administration of members, roles, credentials, templates and quota policies: easy members that would add no harder claim.
- Artifact staleness, outbox, batch runs and the quota ledger of the design documents: not implemented.
