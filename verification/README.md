# Admin platform: verified models of its stateful cores

This project models the parts of the admin platform whose correctness is argued in comments: refresh-token
families, the department tree, the RBAC menu seed, idempotent requests, transaction locks, the login guard,
and a few small algorithms with subtle input spaces. It states what each of them is for and proves it in
Dafny 4.11. `dafny verify dfyconfig.toml` checks the whole project.

Code that changes state is modelled as classes and methods with the same steps (`RefreshService`,
`SessionClient`, `DeptService`, `RbacSeed`, `AppLocks`, `Idempotency`, `LoginGuard`, `BuildTree`, `Excel`),
each proved against functions of the old state; the laws are then proved about those functions. Code that
runs concurrently is also modelled as a transition system over single SQL statements or store operations,
with any number of participants, and the laws are proved for every reachable state of every run
(`RefreshConcurrent` with `RefreshSafety`, `RefreshRuns`, `RefreshSessions`, `RefreshPaths` and
`RefreshPasswords`; `DeptConcurrent`; `AppLocksConcurrent`; `IdempotencyConcurrent`; `LoginGuardConcurrent`; `SessionClient`).
`RefreshRefines` ties the two forms of the refresh protocol together: whatever the other transactions do
between its statements, every commit does to the stored rows, as they are at that moment, what the use case
does in one go.

| file | about |
|---|---|
| `RefreshTable`, `RefreshService`, `RefreshLaws` | token rows, the use cases run alone, their laws |
| `RefreshAnswers` | what the holder of a token is told, from its issue to the end of its family |
| `RefreshConcurrent`, `RefreshSafety`, `RefreshRuns` | the same use cases interleaved statement by statement; the invariant every step keeps; laws of whole runs |
| `RefreshRefines` | that every commit of a run amounts to its use case |
| `RefreshSessions`, `RefreshPaths` | the bound on sessions with its exact condition; runs that do happen, and what they show to be exact |
| `RefreshPasswords` | logins that had their password checked before it was changed |
| `SessionClient` | the browser's single-flight refresh, alone and composed with the server |
| `Forests`, `DeptTree`, `DeptService`, `DeptConcurrent` | rows that name a parent row, the two recursive queries, the service, and its interleavings |
| `MenuSeed`, `RbacSeed` | the manifest walk as values, and the seed that writes the table |
| `AppLocks`, `AppLocksConcurrent` | acquiring a sentinel row lock, alone and interleaved |
| `Idempotency`, `IdempotencyConcurrent` | cache keys and dispatch, alone and interleaved |
| `LoginGuard`, `LoginGuardConcurrent` | the guard command by command with a Redis that may fail at any of them; attempts that overlap |
| `LikeEscape`, `BuildTree`, `ExcelText`, `Excel` | the smaller kernels |

## What the proofs found

The code is modelled as it is. Where a documented property is not true of it, the project proves exactly when
it holds and gives an input for which it does not.

* **A rotation reads its clock before it takes the user lock** (refresh_service.py:142 and :149). A rotation
  that waits for the lock can therefore renew a token that has expired meanwhile, and bring back a session
  that others no longer count. The set of active families is unchanged by a rotation exactly when the
  presented row is still unexpired at the second clock reading, or the absolute limit has passed
  (`RotationKeepsActiveFamiliesExactlyWhenPrompt`). A user leaves the bound on sessions exactly at the commit
  of such a late rotation, and only while `max_sessions` other families of the user are active; in every
  run a user is within the bound throughout if and only if there is no such commit (`BoundedExactlyWhen`),
  and a login or a change of password restores the bound in any case (`LoginRestoresTheBound`).
  `LateRotationBreaksTheSessionBound` is a run that breaks it.
* **A change of password revokes the families that are active at its own clock reading.** An older token is
  accepted afterwards exactly when it had expired by then and is checked against a reading from before its
  expiry (`OlderTokensAfterPasswordChange`). Over runs, a committed change shuts an older family for good if
  and only if no open refresh is still waiting with such a reading (`PasswordChangeIsFinalExactlyWhen`);
  `LateRotationSurvivesPasswordChange` is a run in which one is.
* **The guard against cycles sees 64 levels** (dept/repository.py:21). An accepted move keeps the forest
  exactly when its target is not further down than that (`AllowedMoveKeepsForestExactlyWhen`); in a chain of
  66 departments it is (`DeepMoveMakesACycle`). Over whole runs the departments are a forest in every state
  exactly when no commit makes such a move (`ForestExactlyWhenNoDeepMove`).
* **Two tests in a rotation never decide on stored rows**: the one for the absolute limit and the one for a
  recorded reuse are implied by the others (`RenewableExactlyWhenLive`).
* **A login checks the password before it takes the user lock** (service.py:169 and :184,
  refresh_service.py:112). A login, or a second change, that has had the old password checked can wait out a
  change of password and open a family after it, although other devices are meant to log in again. Over runs,
  a family is opened with an outdated password if and only if a change was committed since its opener's check
  (`OpenedWithOldPasswordExactlyWhen`), and a committed change shuts out the older passwords for good if and
  only if no open transaction of the user is past such a check (`NoOldPasswordComesInExactlyWhen`);
  `OldPasswordComesIn` is a run in which one is.
* **A page reload while a refresh is in flight leaves a token in store that has been sent.** In every history
  some token has been sent twice if and only if a call was made with such a token still stored
  (`SentTwiceExactlyWhenResent`), and without such a call the server reports no reuse
  (`NoReuseWithoutResend`). Once the server has renewed the token for one of two requests, the other is taken
  for theft and ends the session (`SecondRequestIsReported`, `ReloadInFlightHappens`). A call of
  `refreshOnce` with nothing stored leaves a rejected promise behind, and the tab sends nothing until it is
  reloaded (`LatchedSendsNothing`).
* **An idempotency entry that expires between a refused `set_nx` and the following `get`** lets two handlers
  run at once although nothing fails (`ExpiryInBetweenOverlaps`). Two handlers for a key run at once exactly
  when one starts beside another, and then its look-up failed, or the other runs without the lock or has
  outlived it (`OverlapExactlyWhen`). The cache key tells subjects apart, but not
  a colon in the path from a colon in the client key (`ColonInPathCollides`).
* **A Redis failure between the first two commands of `record_failure`** leaves a failure counter that never
  expires, exactly when the counter had no expiry to inherit (`CounterStaysForEverExactlyWhen`).
* **Login attempts that overlap check more passwords than the threshold**: with at most m checked and not
  yet counted, `lock_threshold` + m - 1, and no more (`OverlappingGuessesAreBounded`,
  `OverlappingGuessesReachTheBound`).
* **Two trips through Excel settle any text; one can be too few**: trimming may uncover a formula
  (`OneTripIsNotEnough`).
* The documentation of `list_ancestor_dept_ids` promises the path from the root; below 64 levels the query
  returns the nearest 64 ancestors (`AncestorsAreThePath`).

## Assumptions

* A uuid is fresh whenever one is drawn, database ids increase, and the clock does not go back. Clock
  readings are whole seconds; the rounding of a DATETIME column is not modelled.
* A token's secret verifies exactly for the token it was issued with. Hashing and signing are not modelled.
* The database gives READ COMMITTED reads, exclusive row locks and foreign keys that are checked when a row is
  written and hold the parent row until the end of the transaction.
* A cache or store entry expires exactly when its time to live is over.

## Model

| member | source | states |
|---|---|---|
| `RefreshTable.OneLiveRow` | src/admin_platform/domains/auth/refresh_service.py:154-195 | Of the rows of a family at most one is unrevoked, and it is the last one issued. |
| `RefreshTable.NewFamilyKeepsInv` | src/admin_platform/domains/auth/refresh_service.py:64-84 | Opening a family keeps the invariant of the table: expiry is the smaller of idle and absolute lifetime, the absolute limit is fixed at login. |
| `RefreshTable.RotateKeepsInv` | src/admin_platform/domains/auth/refresh_service.py:188-195 | Inserting a successor and marking the old row keeps the invariant: one path per family, the limit carried over unchanged. |
| `RefreshTable.RevokeKeepsInv` | src/admin_platform/domains/auth/repository.py:90-98 | Revoking families keeps the invariant. |
| `RefreshTable.DeleteKeepsInv` | src/admin_platform/domains/auth/repository.py:121-126 | Cleanup at any cutoff keeps the invariant, because expiries never decrease along a rotation: it removes the front of each path and leaves no dangling successor. |
| `RefreshTable.PathCoversFamily` | src/admin_platform/domains/auth/repository.py:82-88 | From any row of a family the rotation edges visit each later row of the family once, in order of issue: the family is one simple path. |
| `RefreshTable.NoRowOutlivesItsLogin` | src/admin_platform/domains/auth/refresh_service.py:67-71 | Every expiry is at most the idle lifetime after the issue and at most the absolute lifetime after the first login of the family, and equal to one of them. |
| `RefreshService.RefreshTokenRepository.MarkAsRotated` | src/admin_platform/domains/auth/repository.py:82-88 | Sets successor, time and reason on the one row. |
| `RefreshService.RefreshTokenRepository.RevokeFamily` | src/admin_platform/domains/auth/repository.py:90-98 | Revokes exactly the unrevoked rows of the family and returns their number. |
| `RefreshService.RefreshTokenRepository.ListActiveFamilies` | src/admin_platform/domains/auth/repository.py:100-119 | Lists each family with an unrevoked, unexpired row of the user once, in descending order of (latest issue, greatest id). |
| `RefreshService.IssueRefreshToken` | src/admin_platform/domains/auth/refresh_service.py:52-90 | Stores one new row with the two lifetimes combined and returns its token, remaining lifetime and family. |
| `RefreshService.EnforceConcurrencyLimit` | src/admin_platform/domains/auth/refresh_service.py:93-104 | Revokes exactly the families listed beyond the limit. |
| `RefreshService.IssueLoginRefresh` | src/admin_platform/domains/auth/refresh_service.py:107-115 | Opens a family, then evicts from a listing that is taken after the insertion. |
| `RefreshService.RotateRefreshToken` | src/admin_platform/domains/auth/refresh_service.py:126-196 | Renews exactly the presented tokens that are renewable, with a token of the same family whose lifetime is the idle one or what is left of the absolute one; reports reuse exactly for a rotated or reuse-revoked row and revokes its family; leaves the rows alone in every other case. |
| `RefreshService.RevokeRefreshToken` | src/admin_platform/domains/auth/refresh_service.py:199-219 | Revokes the family of a token that is presented with its secret, and otherwise does nothing. |
| `RefreshService.AuthService.Refresh` | src/admin_platform/domains/auth/service.py:216-264 | Each answer with its exact condition, and the whole token that is handed out; the revocations made on the way to an error are stored. |
| `RefreshService.AuthService.Logout` | src/admin_platform/domains/auth/service.py:267-270 | Revokes the family of the presented token and nothing else. |
| `RefreshService.AuthService.ChangePassword` | src/admin_platform/domains/auth/service.py:324-385 | Each error with its exact condition and no change; on success the password, and all listed families revoked before one new family is opened. |
| `RefreshLaws.RenewableExactlyWhenLive` | src/admin_platform/domains/auth/refresh_service.py:154-186 | A stored token is accepted exactly when it is unrevoked and unexpired. |
| `RefreshLaws.RefreshKeepsInv` | src/admin_platform/domains/auth/service.py:216-264 | A refresh keeps the invariant of the table on every path, including the refused ones. |
| `RefreshLaws.RefusalEndsTheFamily` | src/admin_platform/domains/auth/service.py:216-264 | After reuse, the refusal of a disabled user, or logout, no row of the family is unrevoked, and no revoked row has changed. |
| `RefreshLaws.RotationKeepsActiveFamiliesExactlyWhenPrompt` | src/admin_platform/domains/auth/refresh_service.py:142-195 | A rotation leaves the set of active families alone if and only if the presented row is unexpired at the second clock reading or the absolute limit has passed. |
| `RefreshLaws.LoginKeepsInv` | src/admin_platform/domains/auth/refresh_service.py:107-115 | A login with its evictions keeps the invariant. |
| `RefreshLaws.RecencyOfLiveRow` | src/admin_platform/domains/auth/repository.py:102-116 | The recency of a family is that of its one active row. |
| `RefreshLaws.LoginKeepsTheNewFamily` | src/admin_platform/domains/auth/refresh_service.py:93-115 | A login never evicts the family it has just opened, which comes first in the listing. |
| `RefreshLaws.LoginBoundsSessions` | src/admin_platform/domains/auth/refresh_service.py:93-104 | After a login at most `max_sessions` families are active, and as many as before if they are within the limit; exactly the evicted families' unrevoked rows changed, and every kept family is more recent than every evicted one. |
| `RefreshLaws.ChangePasswordKeepsInv` | src/admin_platform/domains/auth/service.py:363-370 | A change of password keeps the invariant. |
| `RefreshLaws.OlderTokensAfterPasswordChange` | src/admin_platform/domains/auth/service.py:363-370 | After a change of password an older token is accepted if and only if it was unrevoked, had expired by the change, and is checked against a reading before that expiry. |
| `RefreshAnswers.AnswersExactlyWhen` | src/admin_platform/domains/auth/refresh_service.py:134-186 | On stored rows: granted exactly for an unrevoked, unexpired token with its secret of an active user; reused exactly for one that was rotated or whose family was revoked for reuse; failed login exactly for one like the first of any other user; invalid otherwise. |
| `RefreshAnswers.RenewalIsStored` | src/admin_platform/domains/auth/repository.py:82-88 | The old row keeps all but the marks of the rotation, the new one carries on family, user and absolute limit, and no other row changes; for a user who is not active the new row is stored and revoked. |
| `RefreshAnswers.RefreshTwice` | src/admin_platform/domains/auth/service.py:216-264 | The token of a granted refresh is granted again if and only if it is presented within the lifetime that came with it. |
| `RefreshAnswers.LoginThenRefresh` | src/admin_platform/domains/auth/refresh_service.py:107-115 | The token of a login is granted if and only if it is presented within its lifetime and the user is active. |
| `RefreshAnswers.ChangeThenRefresh` | src/admin_platform/domains/auth/service.py:324-385 | The token of a change of password is granted if and only if it is presented within its lifetime. |
| `RefreshAnswers.ReuseIsToldToTheFamily` | src/admin_platform/domains/auth/refresh_service.py:154-177 | After a reported reuse the good row carries `reuse_detected`, and every token of the family is answered as reused from then on, but for those revoked for another reason before. |
| `RefreshAnswers.LogoutIsTold` | src/admin_platform/domains/auth/refresh_service.py:199-219 | After a logout the good row carries `logout` and its token is invalid, not reused. |
| `RefreshAnswers.EvictionIsTold` | src/admin_platform/domains/auth/refresh_service.py:93-104 | The good row of a family beyond the limit carries `concurrency_limit` and its token is invalid. |
| `RefreshAnswers.ChangeIsTold` | src/admin_platform/domains/auth/service.py:363-370 | After a change of password the good rows of the listed families carry `password_changed` and their tokens are invalid. |
| `RefreshAnswers.StolenTokenIsReported` | src/admin_platform/domains/auth/service.py:216-264 | A rotated token that is presented again is reported, and so is the good token of its owner afterwards. |
| `RefreshAnswers.WrongSecretHasNoEffect` | src/admin_platform/domains/auth/refresh_service.py:144-152 | An unknown token, or one with a wrong secret, is invalid and changes nothing, in a refresh and in a logout. |
| `RefreshAnswers.OtherFamiliesStay` | src/admin_platform/domains/auth/repository.py:90-98 | A refresh and a logout leave the rows of every other family alone. |
| `RefreshAnswers.OtherUsersStay` | src/admin_platform/domains/auth/repository.py:100-119 | A login and a change of password leave the rows of every other user alone. |
| `RefreshAnswers.CleanupIsNotTold` | src/admin_platform/domains/auth/repository.py:121-126 | A cleanup removes exactly the rows expired by its cutoff, and never changes whether a token is granted at a later reading. |
| `RefreshAnswers.ReuseIsRemembered` | src/admin_platform/domains/auth/refresh_service.py:154-177 | In every run, once a reported reuse has committed, the token that was good until then carries the mark in every later state that stores it. |
| `RefreshAnswers.GoodTokenIsReportedToo` | src/admin_platform/domains/auth/refresh_service.py:154-177 | And a later refresh with it, at any reading, is reported as reuse. |
| `RefreshSafety.StepKeeps` | src/admin_platform/domains/auth/refresh_service.py:126-196 | Every statement of every transaction, commit, rollback and cleanup keeps the invariant of committed rows, uncommitted writes, locks and program counters. |
| `RefreshRefines.EveryCommitIsItsUseCase` | src/admin_platform/domains/auth/refresh_service.py:93-219 | In every run, with any steps, commits and cleanups of others between the statements, every commit turns the committed rows of that moment into what the use case of its job makes of them, with the readings, ids and uuids its statements drew: a refresh for an active and for a disabled user, a reported reuse, a logout, and a login or a change of password with a listing of these very rows up to what a cleanup has removed since. |
| `RefreshRefines.InvalidWhenLookedUp` | src/admin_platform/domains/auth/refresh_service.py:142-186 | A request is refused as invalid only when the use case, run at the moment of the deciding look-up, would have left the rows alone too, or refused the password. |
| `RefreshRuns.EveryStateIsSound` | src/admin_platform/domains/auth/refresh_service.py:126-196 | In every committed state of every run a family has at most one unrevoked row, no row outlives its login, no successor is missing, and no token's rotation is committed twice. |
| `RefreshRuns.RunEvolves` | src/admin_platform/domains/auth/repository.py:90-98 | Between any two states of a run a revoked row never changes, a removed row never returns, and a family without an unrevoked row never has one again. |
| `RefreshRuns.RefusalIsFinal` | src/admin_platform/domains/auth/service.py:219-261 | Once reuse detection, logout or the refusal of a disabled user has committed, no token of the family is ever rotated again. |
| `RefreshRuns.PasswordChangeIsFinal` | src/admin_platform/domains/auth/service.py:363-370 | Once a change of password has committed, no older token of the user is ever rotated again, unless a transaction open at that moment may still renew it on a reading from before the expiry of its live row. |
| `RefreshRuns.UsersShareALockExactlyWhen` | src/admin_platform/domains/auth/repository.py:28-34 | Two users share a lock row if and only if their ids are congruent modulo 4096, so there are at most as many rows. |
| `RefreshSessions.StepStaysWithinExactlyWhen` | src/admin_platform/domains/auth/refresh_service.py:93-195 | From a state with a user within `max_sessions`, a step leaves the user within it if and only if it does not commit a rotation whose presented row has expired, whose successor is live, and whose user has `max_sessions` active families. |
| `RefreshSessions.BoundedExactlyWhen` | src/admin_platform/domains/auth/refresh_service.py:93-195 | In every run a user is within the bound in all states if and only if no commit of the run is of that kind for that user. |
| `RefreshSessions.SessionsAreBounded` | src/admin_platform/domains/auth/refresh_service.py:93-115 | A user is within the bound up to any state before which none of that user's own rotations inserted a successor after its predecessor had expired. |
| `RefreshSessions.LoginRestoresTheBound` | src/admin_platform/domains/auth/refresh_service.py:93-115 | The commit of a login or of a change of password leaves its user within the bound, whatever happened before. |
| `RefreshPaths.LateRotationBreaksTheSessionBound` | src/admin_platform/domains/auth/refresh_service.py:142-195 | A run from the empty table that ends with two active families where one is allowed. |
| `RefreshPaths.PasswordChangeIsFinalExactlyWhen` | src/admin_platform/domains/auth/service.py:363-370 | After the commit of a change of password an older family is never renewed in any continuation of the run, if and only if no open refresh is waiting with a reading from before the expiry of its live row. |
| `RefreshPaths.LateRotationSurvivesPasswordChange` | src/admin_platform/domains/auth/service.py:363-370 | A run in which a family is renewed after the change of password. |
| `RefreshPasswords.OpenedWithOldPasswordExactlyWhen` | src/admin_platform/domains/auth/service.py:164-185 | In every run a family is opened for a user who was enabled, with the password the user had, when its opener checked both; and with an outdated one if and only if a change of password was committed since. |
| `RefreshPasswords.NoOldPasswordComesInExactlyWhen` | src/admin_platform/domains/auth/service.py:338-370 | After the commit of a change of password no continuation of the run commits a family of the user that was opened with an older password, if and only if no open login or change of the user has had an older password checked. |
| `RefreshPasswords.OldPasswordComesIn` | src/admin_platform/domains/auth/service.py:164-185 | A run in which a login with the old password opens its family after the change. |
| `SessionClient.Session.RefreshOnce` | frontend/src/api/session.ts:84-102 | Sends the stored token exactly when no refresh is pending; with nothing stored it sends nothing and stays latched. |
| `SessionClient.Session.Resolve` | frontend/src/api/session.ts:90-99 | A successful answer stores the new tokens and ends the pending refresh. |
| `SessionClient.Session.Reject` | frontend/src/api/session.ts:93-99 | A failed refresh clears the tokens and ends the pending refresh. |
| `SessionClient.SentTwiceExactlyWhenResent` | frontend/src/api/session.ts:57-102 | Composed with the server, in every history of calls, logins, logouts, losses, reloads and other sessions, some token has been sent twice if and only if a call found a stored token that had been in flight at a reload and that no login, logout or call has replaced since. |
| `SessionClient.NoReuseWithoutResend` | frontend/src/api/session.ts:84-102 | As long as no such call has been made, the reuse branch never fires for the tab. |
| `SessionClient.SecondRequestIsReported` | src/admin_platform/domains/auth/refresh_service.py:154-169 | In every history, once the server has renewed a token for one request, a later request with the same token is answered as reuse and its family ends, if the row is still stored. |
| `SessionClient.ReloadInFlightHappens` | frontend/src/api/session.ts:84-102 | A history from the empty store with a reload before the answer, in which one token is sent twice and the reuse branch fires. |
| `SessionClient.LatchedSendsNothing` | frontend/src/api/session.ts:87-98 | In every history, after a call with nothing stored and none pending, the tab sends nothing up to the next reload. |
| `SessionClient.AccessExactlyWhenAnswered` | frontend/src/api/session.ts:57-102 | In every history the tab holds an access token if and only if an answer brought it and nothing has ended it since: another answer, a failed refresh, a logout or a reload; the stored refresh token is then of the same answer. |
| `Forests.LeafKeepsForest` | src/admin_platform/domains/dept/repository.py:70-74 | A new row under a stored parent keeps a forest and changes nothing above any other row. |
| `Forests.DeleteKeepsForest` | src/admin_platform/domains/dept/repository.py:89-94 | Rows that no other row points at can be deleted together. |
| `Forests.MoveKeepsForestExactlyWhen` | src/admin_platform/domains/dept/repository.py:76-87 | A move keeps a forest if and only if the new parent is not the moved row or below it. |
| `Forests.LowestRow` | src/admin_platform/rbac/seed.py:461-466 | Every non-empty set of rows of a forest has one with none of the others below it. |
| `DeptTree.DescendantsAreBelow` | src/admin_platform/domains/dept/repository.py:96-113 | The descending query finds exactly the departments at most 64 levels below, itself included. |
| `DeptTree.QueriesAreDual` | src/admin_platform/domains/dept/repository.py:96-134 | On any data, cyclic or not, a is an ancestor of d exactly when they differ and d is a descendant of a. |
| `DeptTree.QueriesAreBounded` | src/admin_platform/domains/dept/repository.py:96-134 | On any data both queries end, with at most 64 ancestors and stored rows only. |
| `DeptTree.AncestorsAreThePath` | src/admin_platform/domains/dept/repository.py:115-134 | The ascending query gives the path from the top to the parent, without gaps or repeats, exactly down to 64 levels, and the nearest 64 ancestors below that. |
| `DeptTree.AllowedExactlyWhen` | src/admin_platform/domains/dept/service.py:125-135 | The guard accepts exactly the targets that are not within 64 levels below. |
| `DeptTree.AllowedMoveKeepsForestExactlyWhen` | src/admin_platform/domains/dept/service.py:125-135 | An accepted move keeps the forest if and only if the target is not more than 64 levels below. |
| `DeptTree.DeepMoveMakesACycle` | src/admin_platform/domains/dept/repository.py:21 | A chain of 66 departments in which the move of its top under its bottom is accepted and makes a cycle, and every move of it further up is refused. |
| `DeptService.DeptRepository.FindByCode` | src/admin_platform/domains/dept/repository.py:58-61 | Finds a department with the code exactly when there is one. |
| `DeptService.DeptRepository.CountChildren` | src/admin_platform/domains/dept/repository.py:63-68 | Counts the direct children. |
| `DeptService.DeptRepository.Update` | src/admin_platform/domains/dept/repository.py:76-87 | Changes exactly the fields that were sent, in the one row; a null for a column that takes none is refused and changes nothing. |
| `DeptService.DeptService.Create` | src/admin_platform/domains/dept/service.py:67-76 | Each error with its exact condition, in the order of the checks; otherwise one new leaf, and a forest stays one. |
| `DeptService.DeptService.CheckNoCycle` | src/admin_platform/domains/dept/service.py:125-135 | True exactly when the target is neither the department nor up to 64 levels below it. |
| `DeptService.DeptService.Update` | src/admin_platform/domains/dept/service.py:78-123 | Each error with its exact condition, in the order of the checks, and no change; the refusal of a null comes last; otherwise exactly the sent fields change. |
| `DeptService.DeptService.Delete` | src/admin_platform/domains/dept/service.py:106-114 | Refuses exactly departments that are missing, invisible or have children; otherwise removes the one row, and a forest stays one. |
| `DeptService.MoveRefusedExactlyWhen` | src/admin_platform/domains/dept/service.py:86-104 | A move is forbidden exactly for a restricted caller and a target outside the caller's departments, the root included; otherwise refused exactly for a missing target, and otherwise exactly for one up to 64 levels below. |
| `DeptService.CodeClashExactlyWhen` | src/admin_platform/domains/dept/service.py:116-123 | An update clashes exactly when it sends a code that another department has. |
| `DeptService.UpdateKeepsForestExactlyWhen` | src/admin_platform/domains/dept/service.py:90-101 | An accepted update keeps the forest if and only if its target is not more than 64 levels below. |
| `DeptService.UpdateKeepsCodesDistinct` | src/admin_platform/domains/dept/service.py:116-123 | An update that passes the code check keeps all codes distinct. |
| `DeptConcurrent.StepKeeps` | src/admin_platform/domains/dept/service.py:86-114 | Every step of every session keeps: all parents exist, one holder of the tree lock, a checked target stays stored and stays outside the 64 levels, uncommitted leaves hang under stored parents. |
| `DeptConcurrent.ForestStepExactlyWhen` | src/admin_platform/domains/dept/service.py:86-101 | A step keeps the forest if and only if it does not commit a move under the department's own descendant. |
| `DeptConcurrent.OnlyDeepMovesGetThrough` | src/admin_platform/domains/dept/service.py:86-101 | In any run such a commit is possible only for a target more than 64 levels down. |
| `DeptConcurrent.ForestExactlyWhenNoDeepMove` | src/admin_platform/domains/dept/service.py:78-135 | In every run, all states are forests if and only if no commit makes such a move. |
| `DeptConcurrent.ShallowMovesKeepForest` | src/admin_platform/domains/dept/service.py:78-135 | All states are forests as long as no moved department has anything more than 64 levels below it. |
| `DeptConcurrent.UninterruptedMove` | src/admin_platform/domains/dept/service.py:78-104 | With nobody in between, the statements of a move go through if and only if the service would accept it, and set the parent. |
| `DeptConcurrent.UninterruptedCreation` | src/admin_platform/domains/dept/service.py:67-76 | Likewise a creation, if and only if its parent is stored. |
| `DeptConcurrent.UninterruptedDeletion` | src/admin_platform/domains/dept/service.py:106-114 | Likewise a deletion, if and only if nothing hangs under the department. |
| `MenuSeed.WalkPutsParentsFirst` | src/admin_platform/rbac/seed.py:433-455 | The pre-order walk reaches every node after its parent. |
| `MenuSeed.WalkFindsEveryNode` | src/admin_platform/rbac/seed.py:433-455 | The walk reaches every node of the manifest, at any depth, with its key, its fields and the key of the node above it, |
| `MenuSeed.WalkFindsNothingElse` | src/admin_platform/rbac/seed.py:433-455 | and nothing else. |
| `MenuSeed.EveryFlushIsForest` | src/admin_platform/rbac/seed.py:433-455 | From any table without a cycle, every flush of the upserts leaves none. |
| `MenuSeed.UpsertsPlaceTheManifest` | src/admin_platform/rbac/seed.py:424-455 | After the upserts every node is stored once with its fields and under its parent, existing menus keep their ids, and all others are untouched. |
| `MenuSeed.OnlyUnmanagedMenusHang` | src/admin_platform/rbac/seed.py:457-460 | The deletion of stale menus is possible if and only if no menu without a key hangs under one of them. |
| `MenuSeed.SeededIsSound` | src/admin_platform/rbac/seed.py:457-470 | After the deletions the table is a forest again and its keyed menus are exactly the placed ones. |
| `MenuSeed.EveryNodeIsSeeded` | src/admin_platform/rbac/seed.py:424-471 | After a seed every node of the manifest is an active menu with its fields, under the menu of the node above it. |
| `MenuSeed.SeedingAgainChangesNothing` | src/admin_platform/rbac/seed.py:399-400 | A second seed changes no row, gives out no id and finds nothing stale. |
| `RbacSeed.Seeder.Upsert` | src/admin_platform/rbac/seed.py:433-452 | The recursion does exactly the entries of the node's subtree in walk order, flush by flush. |
| `RbacSeed.Seeder.UpsertAll` | src/admin_platform/rbac/seed.py:451-455 | The loops over children and roots do the entries of all of them in order. |
| `RbacSeed.Seeder.Prune` | src/admin_platform/rbac/seed.py:460-470 | On a table without a cycle the defensive exit is never taken; the loop succeeds if and only if no other menu hangs under a stale one, and then has deleted each stale menu once. |
| `RbacSeed.Seeder.Seed` | src/admin_platform/rbac/seed.py:424-471 | Succeeds exactly when the stale menus can go, with the seeded table and exact counts, and otherwise leaves the table as it was. |
| `RbacSeed.BatchRefusedExactlyWhen` | src/admin_platform/rbac/seed.py:462-470 | The database refuses a batch of leaves exactly when a menu outside hangs under one of them. |
| `AppLocks.LockService.EnsureRow` | src/admin_platform/db/locks.py:128-154 | Raises exactly when three attempts deadlock or one fails otherwise, and then leaves no trace; otherwise the row exists and is known. |
| `AppLocks.GivesUpExactlyWhen` | src/admin_platform/db/locks.py:128-154 | Creating the row fails exactly when the first three attempts deadlock, or one of them fails otherwise after nothing but deadlocks. |
| `AppLocks.LockService.Acquire` | src/admin_platform/db/locks.py:66-95 | Alone, whatever the cache says, a valid name ends up locked on an existing row, unless creating the row beforehand fails for good, and never in the final error; the second attempt is needed exactly when the cache names a missing row. |
| `AppLocks.RolledBackInsertStaysKnown` | src/admin_platform/db/locks.py:120-125 | A rollback of the caller leaves the cache naming a row that is gone. |
| `AppLocksConcurrent.StepKeeps` | src/admin_platform/db/locks.py:66-154 | Every step, and any change of the caches, keeps locks and uncommitted rows exclusive and every lock on an existing row. |
| `AppLocksConcurrent.ReturnedMeansLocked` | src/admin_platform/db/locks.py:82-95 | In any run, from any rows and caches, a call that returned holds the lock of an existing row, and no other open transaction holds it or returned for the name. |
| `AppLocksConcurrent.HeldUntilTheEnd` | src/admin_platform/db/locks.py:69-70 | The lock is kept until its transaction commits or rolls back. |
| `AppLocksConcurrent.AtTheEnd` | src/admin_platform/db/locks.py:69-70 | A commit leaves the locked row stored and nobody holding it; a rollback leaves the rows as they were. |
| `AppLocksConcurrent.CallsAreBounded` | src/admin_platform/db/locks.py:66-125 | In every run a call is about a name of 1 to 191 characters and has at most two attempts. |
| `AppLocksConcurrent.CallWithRow` | src/admin_platform/db/locks.py:66-125 | With nobody else concerned with the name, a call locks a row that is there and known, |
| `AppLocksConcurrent.CallWithStaleCache` | src/admin_platform/db/locks.py:66-125 | inserts the row and locks it at the second attempt if the cache is wrong about it, |
| `AppLocksConcurrent.CallWhileConnected` | src/admin_platform/db/locks.py:66-125 | inserts an unknown row itself in a transaction that has run a statement, |
| `AppLocksConcurrent.CallAtFirst` | src/admin_platform/db/locks.py:66-125 | and has it committed by a short transaction otherwise; it always returns, and changes nothing else. |
| `Idempotency.KeysMeetExactlyWhen` | src/admin_platform/core/idempotency.py:377-383 | For subjects without a colon two requests share a key if and only if subject, and path joined with client key, are the same. |
| `Idempotency.PlainPathsAreTold` | src/admin_platform/core/idempotency.py:377-383 | Where the paths have no colon either, the key determines all three parts; every key begins with `idem:`. |
| `Idempotency.ColonInPathCollides` | src/admin_platform/core/idempotency.py:377-383 | Two different requests of one subject with the same key. |
| `Idempotency.IdempotencyMiddleware.ResolveConflict` | src/admin_platform/core/idempotency.py:257-289 | The answer to a request that finds an entry: replay, in flight, or key reused; none when the store is down or the entry is gone. |
| `Idempotency.IdempotencyMiddleware.Dispatch` | src/admin_platform/core/idempotency.py:172-219 | Alone, the handler is skipped exactly when a live entry is found, with the verdict that its hash and state call for; a response with a status from 200 to 299 is cached, anything else leaves the lock. |
| `Idempotency.RetryIsReplayed` | src/admin_platform/core/idempotency.py:172-219 | After a response with a status from 200 to 299 a retry gets that response exactly for the cache lifetime, and another body under the key a refusal. |
| `Idempotency.RetryAfterFailure` | src/admin_platform/core/idempotency.py:172-219 | After any other status a retry is told that the first request is in flight exactly for the lifetime of the lock, and is run afterwards. |
| `IdempotencyConcurrent.ReplaysAreReal` | src/admin_platform/core/idempotency.py:257-319 | With any failures and expiries, every replayed response has a status from 200 to 299 and comes from an earlier handler run under the same key, body hash and subject. |
| `IdempotencyConcurrent.OverlapExactlyWhen` | src/admin_platform/core/idempotency.py:195-219 | In every trace two handlers for a key run at once by step n if and only if a step before starts one beside another while its own look-up failed, or the other runs without the lock or has outlived it. |
| `IdempotencyConcurrent.RunsNeverOverlap` | src/admin_platform/core/idempotency.py:195-219 | While, for one key and so far, the store answers, handlers end within the lock's lifetime, and no entry expires between a refusal and its look-up, handler runs under the key never overlap, whatever happens to other keys or later. |
| `IdempotencyConcurrent.NoRunAfterSuccess` | src/admin_platform/core/idempotency.py:195-219 | Under the same conditions, after a handler has ended with a status from 200 to 299 and its response is written, no handler runs for the key until the cache lifetime is over. |
| `IdempotencyConcurrent.RetryGetsTheResponse` | src/admin_platform/core/idempotency.py:285-286 | In that time a retry whose look-up does not fail is answered with that very response. |
| `IdempotencyConcurrent.NoRunWhileLocked` | src/admin_platform/core/idempotency.py:195-219 | Under the same conditions, after any other status no handler runs for the key until the lock runs out. |
| `IdempotencyConcurrent.RetryIsInFlight` | src/admin_platform/core/idempotency.py:257-289 | In that time a retry is told that the first request is in flight. |
| `IdempotencyConcurrent.UninterruptedRequest` | src/admin_platform/core/idempotency.py:172-219 | With nothing in between, the store operations of a request do what the middleware does alone. |
| `IdempotencyConcurrent.ExpiryInBetweenOverlaps` | src/admin_platform/core/idempotency.py:197-206 | A run in which only the last condition fails and two handlers run at once. |
| `LoginGuard.Guard.PreCheck` | src/admin_platform/domains/auth/login_guard.py:45-59 | Locked before limited before captcha, each exactly when; a lock is seen by the first command, and if Redis fails before the last one it is a captcha, whatever the counters are. |
| `LoginGuard.Guard.RecordFailure` | src/admin_platform/domains/auth/login_guard.py:62-77 | Executes the commands for user, address and lock one after the other, up to the one at which Redis fails. |
| `LoginGuard.UninterruptedIsAfterFailure` | src/admin_platform/domains/auth/login_guard.py:66-75 | All of them together count the failure for user and address with a renewed window, and lock the account at the threshold. |
| `LoginGuard.FailureCountsForTheWindow` | src/admin_platform/domains/auth/login_guard.py:62-77 | A failure counts with those before it exactly until the window is over; at the threshold the account is locked exactly as long as configured; no other user or address is concerned. |
| `LoginGuard.InterruptedFailure` | src/admin_platform/domains/auth/login_guard.py:66-77 | From the first command on the failure is counted for the user, once and for no one else, wherever Redis fails; short of the last the lock is untouched. |
| `LoginGuard.CounterStaysForEverExactlyWhen` | src/admin_platform/domains/auth/login_guard.py:68-69 | A counter without expiry is left exactly when Redis fails between INCR and EXPIRE on a counter that had none. |
| `LoginGuard.Guard.Login` | src/admin_platform/domains/auth/service.py:113-143 | Each outcome of an attempt with its exact condition, in particular a captcha demanded exactly from the threshold on; wherever Redis fails, the counters after it; without Redis no password is checked without a captcha. |
| `LoginGuard.UserGuessesAreBounded` | src/admin_platform/domains/auth/login_guard.py:45-77 | From any state, in a span shorter than window and lock without a login, at most `lock_threshold` wrong passwords are checked for a user. |
| `LoginGuard.IpGuessesAreBounded` | src/admin_platform/domains/auth/login_guard.py:45-91 | From any state, in a span shorter than the window at most `ip_limit` wrong passwords are checked from an address, whatever logins succeed in between. |
| `LoginGuard.UnsolvedGuessesAreBounded` | src/admin_platform/domains/auth/login_guard.py:45-59 | From any state, in a span shorter than the window without a login, at most `captcha_threshold` wrong passwords are checked for a user without a solved captcha. |
| `LoginGuard.BurstGetsExactly` | src/admin_platform/domains/auth/login_guard.py:62-77 | A burst of wrong passwords gets exactly as many checked as the lowest threshold leaves: the lock, the captcha if it is not solved, and the address limit if the address is known. |
| `LoginGuardConcurrent.OverlappingGuessesAreBounded` | src/admin_platform/domains/auth/login_guard.py:45-77 | From any state, with attempts of any number overlapping: if at most m checked guesses for a user are uncounted at any time, at most `lock_threshold` + m - 1 wrong passwords are checked in such a span without a login, and likewise without solved captchas with `captcha_threshold`, and for an address with its limit. |
| `LoginGuardConcurrent.OverlappingGuessesReachTheBound` | src/admin_platform/domains/auth/login_guard.py:45-77 | For every m there are attempts that get exactly so many checked. |
| `LoginGuardConcurrent.UninterruptedAttempt` | src/admin_platform/domains/auth/login_guard.py:45-91 | With nothing in between, check and record do what the guard does alone. |
| `LikeEscape.ReplacementsAreOnePass` | src/admin_platform/core/pagination.py:71 | The three replacements in a row escape each character once. |
| `LikeEscape.EscapeCharacterComesFirst` | src/admin_platform/core/pagination.py:69-71 | In another order they would not. |
| `LikeEscape.KeywordMatchesExactlyWhenContained` | src/admin_platform/core/pagination.py:63-72 | The pattern of a keyword matches a text if and only if the text contains the keyword. |
| `LikeEscape.KeywordMatchesIgnoringCase` | src/admin_platform/core/pagination.py:75-81 | The same for folded texts, for every folding of single characters that respects the special ones. |
| `BuildTree.MakeNodes` | frontend/src/composables/useTree.ts:23-26 | One fresh node per id, holding the last item with it. |
| `BuildTree.BuildTree` | frontend/src/composables/useTree.ts:22-40 | Roots and the children of every node are the nodes of the matching items, in input order; a childless node has no list. |
| `BuildTree.RootsInOrder` | frontend/src/composables/useTree.ts:28-39 | The roots are exactly the items whose parent is null or missing, each once, in input order. |
| `BuildTree.ChildrenInOrder` | frontend/src/composables/useTree.ts:28-39 | The children of a node are exactly the items that name it, each once, in input order. |
| `BuildTree.LevelsAreBuilt` | frontend/src/composables/useTree.ts:22-40 | The nodes k steps below the returned roots, by following `children`, are those of the ids on level k, from left to right. |
| `BuildTree.NodeStandsExactlyWhenRooted` | frontend/src/composables/useTree.ts:29-38 | With distinct ids an item's node can be reached from the roots if and only if its parent chain ends at null or a missing id, and it stands in one place only. |
| `ExcelText.SurvivesExactlyWhenPlain` | src/admin_platform/excel/writer.py:46-55 | A text survives export and import if and only if it has no illegal character, no space at its ends and no formula trigger in front. |
| `ExcelText.TripsSettle` | src/admin_platform/excel/reader.py:167-169 | Two trips settle any text, and one does exactly when its result does not start with a trigger. |
| `ExcelText.OneTripIsNotEnough` | src/admin_platform/excel/writer.py:43-55 | A text that changes on the second trip. |
| `ExcelText.CharacterInside` | src/admin_platform/excel/writer.py:46-55 | For every character: dropped inside a text exactly if it is a control character other than tab and line break, or a noncharacter. |
| `ExcelText.CharacterAlone` | src/admin_platform/excel/writer.py:43-55 | For every character: what a text of that one character comes back as, apostrophe and trimming included. |
| `ExcelText.FormulaIsQuoted` | src/admin_platform/excel/writer.py:39-55 | A clean text that starts like a formula comes back with one apostrophe before it. |
| `ExcelText.StripIsTheMiddle` | src/admin_platform/excel/reader.py:167-169 | Trimming takes nothing but spaces at the ends away. |
| `Excel.GuardZipBomb` | src/admin_platform/excel/reader.py:62-89 | The running checks accept exactly the archives within all three bounds. |
| `Excel.TotalAdds` | src/admin_platform/excel/reader.py:76-78 | The total that is bounded is the sum of the unpacked sizes. |
| `Excel.ExcelImporter.RowErrors` | src/admin_platform/excel/reader.py:158-164 | One error per rejected field, in order, under the header of the first column with the field, or none if no column has it. |
| `Excel.ExcelImporter.ReadRow` | src/admin_platform/excel/reader.py:142-149 | The data the schema is given, empty optional fields left out. |
| `Excel.ExcelImporter.ParseRows` | src/admin_platform/excel/reader.py:129-156 | The rows and errors of everything up to the limit, and one error beyond it; a sheet that breaks off raises exactly if the limit was not passed before. |
| `Excel.ExcelImporter.Parse` | src/admin_platform/excel/reader.py:91-127 | Which archives are opened, and the result for a file that cannot be read or breaks off, an empty sheet, missing columns, and a readable sheet. |
| `Excel.MissingIsReported` | src/admin_platform/excel/reader.py:110-118 | Exactly the columns without a header in the sheet are reported, in row 1 and under their headers. |
| `Excel.ShortRowsArePadded` | src/admin_platform/excel/reader.py:140-147 | A row that ends early reads like one with empty cells at its end. |
| `Excel.ExcelImporter.RowsOfPrefix` | src/admin_platform/excel/reader.py:134-155 | Rows come in increasing order under numbers from 2 on. |
| `Excel.ExcelImporter.EachRowIsReadOrReported` | src/admin_platform/excel/reader.py:134-155 | A blank row leaves nothing; any other row within the limit is read once or reported, never both. |
| `Excel.EveryErrorIsReported` | src/admin_platform/excel/reader.py:150-164 | Every error of a rejected row is reported in its order, under the header of its column, and no other error is about the row. |
| `Excel.LastHeaderWins` | src/admin_platform/excel/reader.py:109 | A header is found at the last cell with its text, if there is one. |
| `Excel.ExcelExporter.Write` | src/admin_platform/excel/writer.py:28-36 | The header row, then one row of texts per record. |
| `Excel.HeadersAreFound` | src/admin_platform/excel/writer.py:31 | An exported header row gives every column its own position back. |
| `Excel.ExportThenImport` | src/admin_platform/excel/reader.py:91-156 | Writing records and parsing what was written: up to the limit every row that is not blank is read or reported, never both; a row that is read is its record, every text one trip older and under its own column; the limit is reported exactly when there are more records. |
| `Excel.PlainRecordComesBack` | src/admin_platform/excel/writer.py:46-55 | A record of plain texts comes back unchanged. |
| `Excel.ExportedRecordIsBlankExactlyWhen` | src/admin_platform/excel/reader.py:140-141 | An exported record is skipped as blank if and only if none of its texts has a legal character. |

## Left out

- RefreshSessions.SessionsAreBounded: a condition that is easy to check; the exact one is BoundedExactlyWhen.
- RefreshRuns.PasswordChangeIsFinal: excludes open transactions that may still renew the family late, for which it is false; PasswordChangeIsFinalExactlyWhen says that nothing else has to be excluded.
- RefreshRefines.EveryCommitIsItsUseCase: the listing of a login or a change of password may still name families of which a cleanup has removed the rows since; revoking those changes nothing.
- SessionClient.SentTwiceExactlyWhenResent: one tab; several tabs have separate session storage and are not modelled together.
- IdempotencyConcurrent.RunsNeverOverlap: conditions that are easy to check; the exact one is OverlapExactlyWhen. A failed store write that takes effect only later, after its error was returned, is not modelled.
- LoginGuard.UserGuessesAreBounded: attempts follow one another, with Redis at work throughout; LoginGuardConcurrent lets them overlap.
- LoginGuardConcurrent.OverlappingGuessesAreBounded: the commands of one pre-check, and those of one record, are one step each, and Redis does not fail.
- LikeEscape.KeywordMatchesIgnoringCase: foldings that map one character to several are not modelled.
- Excel.ExportThenImport: the workbook keeps cleaned texts as they are; number cells, XML details of openpyxl, and float rounding of the compression ratio are not modelled.
- Excel.ExcelImporter.Parse: a schema that raises anything but its validation error, which also makes the file invalid, is not modelled.
- In RefreshConcurrent the second look-up of `revoke_refresh_token` inside a refresh is one step with the revocation, the row lock of a token that is refused as invalid is dropped early, so that more interleavings are allowed than occur, and cleanup is one atomic DELETE that waits for locked or written rows.
- In RefreshConcurrent a password is the number of changes before it, so that setting an earlier password again makes a new one; the lock that a change of password takes on the user's own row when it writes the hash is not modelled, so that more interleavings are allowed than occur.
- In AppLocksConcurrent the per-event-loop guard around row creation is not modelled, so more interleavings are allowed than occur; deletion of a row from outside is one atomic step.
- In IdempotencyConcurrent responses are opaque values; JSON, headers and body streaming are not modelled, nor is which requests the middleware takes up.
- Deletion of a user with the cascade on tokens, the monitor's forced logout, captcha contents, audit events and login logs.
- The seed lock and the upsert of the one built-in role in the RBAC seed, and the contents of the manifest.
- Data scopes beyond the visibility test of the department service, paging of its lists, field lengths and timestamps.
- Menu, config, dictionary and notice services, FastAPI routing, schemas, migrations and the rest of the frontend: they would add only easy members.
