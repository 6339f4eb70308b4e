# Verification model of the auth service

A Dafny model of a small authentication service (Rust, axum, Redis, Postgres) and proofs about the state
it keeps: refresh tokens and their per-user index in Redis, the login lockout and request counters in
Redis, users and password reset tokens in Postgres, and signed token claims that tie them together.
`dafny verify dfyconfig.toml` checks the whole project.

## What is modelled

| files | part of the service |
|---|---|
| `Prelude`, `Redis` | one clock; a Redis keyspace whose keys expire; every command the service sends as one function; a connection |
| `SessionStore` | `TokenStore`: its three operations, and their refinement of a plain map of live sessions |
| `Jwt` | claims, signing and checking |
| `SessionMachine` | login, refresh, logout and revoke-all with each Redis command a step of its own and any number in flight |
| `SessionInvariants`, `SessionSteps`, `SessionMoves` | the invariant of that machine, its preservation by each kind of step, and what a step can change at all |
| `SessionTheorems`, `SessionAlone` | what the invariant means over whole runs; agreement of the machine with the store's methods |
| `SessionCoverage`, `SessionMissed`, `SessionRevocation` | when exactly the index knows a live token; runs on both sides of that line; access after a revoke-all |
| `Lockout`, `LockoutMachine` | the failure counter against its event history; concurrent logins |
| `RateLimit` | the request limiter against the history of a key, its command-level machine and its bounds |
| `Validation` | email and password rules |
| `Repositories`, `ResetMachine`, `ResetAlone` | the two tables, their constraints and statements; interleaved resets; agreement with the handlers |
| `Handlers`, `HandlerAnswers` | the REST handlers over all stores, and exactly when each succeeds and how it refuses |
| `HandlerRuns`, `HandlerHistory` | runs of the handlers in any order, against the history that clients see |

Classes with mutable fields (`Connection`, `TokenStore`, `LockoutStore`, `Pool`, `UserRepository`,
`ResetTokenRepository`, `App`) follow the source's objects; each method is proved equal to a function of
the old state, and the theorems are about those functions. What follows fixes how the outside world is
read.

- **One clock** in whole seconds serves the application, Redis and Postgres. A Redis key is live while
  `now < deadline`; a reset row is usable while `now < expires_at`. The JWT library accepts a token while
  `now <= exp + leeway`, with `leeway` any natural number (RFC 7519, section 4.1.4, for `exp`; section
  4.1.7 for `jti`).
- **Constants are those in the code**: 7 days and 15 minutes (`src/domain/jwt.rs:42-43`, and again
  `src/routes/mod.rs:182` and `233`). The repository's own README lists environment variables for the two
  lifetimes, but `main` never reads them.
- **Cryptography is ideal**: a token decodes exactly if those claims were signed, a password hash verifies
  exactly the password it was made from, SHA-256 is injective. Generated ids and tokens are parameters,
  and runs assume that they are new.
- **Pipelines are not atomic** (`redis::pipe()` without `.atomic()`): in `SessionMachine` any other command
  may fall between two commands of one pipeline. The clock does not advance inside one store's pipeline.
- **A revoke-all that overlaps a store** of the same user can miss the new token: `StoreIsMissed` gives a run
  in which it stays usable after a second revoke-all. Overlap alone is not what decides
  (`OverlappedYetCovered`). A live token whose store has finished is missing from the index exactly when a DEL
  of the index fell after its SADD (`CommandLevelCoverage`). A revoke-all misses exactly the tokens whose SADD
  falls between its SMEMBERS and its end, or that an earlier DEL of the index had unlisted; it logs the user out, if nothing
  of the user is then under way, exactly when none of these is live (`RevokeAllLogsOutExactly`). A refresh past
  its GETDEL survives it in any case (`RefreshOutlivesRevokeAll`).
- **The lockout bound counts a failure once.** `FailuresBounded` adds to the counter the logins past
  `is_locked` whose failure is not yet in it. Adding every unfinished login counts the one between INCR and
  EXPIRE twice. That sum stays within the bound, with one login at a time, exactly when it is not the case that
  the email is locked and a login is between the two commands (`UnfinishedBoundExactly`,
  `UnfinishedWouldCountTwice`).
- **A tenth failure may leave no lock.** INCR and EXPIRE are two commands, and the deadline that the ninth
  failure set can pass between them; EXPIRE then finds no key (`LockLostBeforeExpire`). The tenth failure locks
  for 900 seconds exactly when its EXPIRE runs before that deadline (`TenthFailureLocksFor900`).
- **Two expiries.** The Redis entry and the JWT agree for the whole life of a refresh token exactly when the
  entry is written no later than `leeway + 1` seconds after signing (`TwoExpiriesOneVerdict`).
- **Unique violations** all become `EmailConflict` (`src/data/error.rs:20-29`), so a repeated reset-token
  hash would be answered as a conflict of emails. The model keeps this.

## Model

| member | source | states |
|---|---|---|
| SessionStore.TokenStore.StoreRefreshToken | src/data/token_store.rs:15-31 | Afterwards the token is owned by the user for `ttl` seconds, the user's index holds it beside every live member, and the whole index expires with it; zero `ttl` is an error that still drops the index |
| SessionStore.TokenStore.RevokeRefreshToken | src/data/token_store.rs:33-44 | Returns the owner of a live token, removes key and index entry, and changes nothing for a token that is not live |
| SessionStore.TokenStore.RevokeAllSessions | src/data/token_store.rs:46-62 | The loop over the index deletes exactly the listed tokens and then the index; an empty index changes nothing; the count is the size of the index |
| SessionStore.StoreRefines | src/data/token_store.rs:24-28 | Storing a fresh token adds one session to the plain map, and keeps every live token in its owner's index if and only if no live token of that user outlives the new one |
| SessionStore.ShorterTtlLosesSession | src/data/token_store.rs:25-27 | A concrete case: a later store with a shorter lifetime expires the index early, and revoke-all then misses a live token |
| SessionStore.RevokeRefines | src/data/token_store.rs:33-44 | Revoking removes exactly that session from the plain map and keeps the index consistent |
| SessionStore.RevokeAllRefines | src/data/token_store.rs:46-62 | Driven by an index with stale members, revoke-all removes every live session of the user and nobody else's, and reports at least their number |
| SessionStore.RevokeAllCompleteExactly | src/data/token_store.rs:50-60 | On any keyspace, consistent or not: nothing live is left to the user if and only if the index listed all of it |
| SessionStore.CallRefines | src/data/token_store.rs:15-62 | Each operation, and the passing of time, commutes with the abstraction to a plain map and keeps consistency |
| SessionStore.Simulation | src/data/token_store.rs:15-62 | Over every run with fresh tokens, the two kinds of Redis key behave as one map from token to user and expiry |
| SessionStore.RevokeAllIsFold | src/data/token_store.rs:46-62 | On live sessions, revoke-all equals revoking the user's live tokens one by one in any order |
| SessionStore.RevokeIdempotentAndCommutes | src/data/token_store.rs:33-44 | On the whole keyspace, indexes included: revoking twice is revoking once, and two revocations commute |
| Jwt.SignThenDecode | src/domain/jwt.rs:72-100 | Checking accepts what was signed, for the signed kind, until expiry plus leeway, and rejects any other claims under the same id; says which error otherwise |
| Jwt.TwoExpiriesOneVerdict | src/domain/jwt.rs:82-96 | Liveness in Redis alone decides acceptance for exactly 7 days if and only if the write came within leeway plus one second of the signing |
| SessionSteps.InvariantStep | src/routes/mod.rs:145-241 | Every single command of every handler keeps provenance, ledger, families, linearity and coverage |
| SessionSteps.ReachableInvariant | src/routes/mod.rs:145-241 | So they hold in every reachable state of every interleaving |
| SessionAlone.StoreAlone | src/data/token_store.rs:24-28 | SET, SADD and EXPIRE of the machine, back to back, have the effect the store method promises |
| SessionAlone.ConsumeAlone | src/routes/mod.rs:219-234 | GETDEL and SREM of the machine, back to back, have the effect of the revoke method, for live and dead tokens; a logout then ends and a refresh goes on to sign for the subject and email of the claims |
| SessionAlone.IssueAlone | src/routes/mod.rs:178-183 | Signing and storing of the machine, back to back, issue and store what a login or a refresh does |
| SessionAlone.RevokeAllAlone | src/data/token_store.rs:50-60 | SMEMBERS in any order and the DELs, back to back, have the effect of the revoke-all method |
| SessionTheorems.OverlappedMeans | src/data/token_store.rs:24-60 | A token is marked if and only if at some earlier moment its store and a revoke-all of its user were both between their commands |
| SessionCoverage.CommandLevelCoverage | src/data/token_store.rs:24-60 | In every interleaving, a live token whose store finished is in its owner's index, which expires no earlier than the token, if and only if no revoke-all of the owner deleted the index after the token's SADD |
| SessionCoverage.UndisturbedIsCovered | src/data/token_store.rs:24-60 | So a token whose store overlapped no revoke-all of its user is in the index: a revoke-all deletes the index over a live token only if their pipelines overlapped |
| SessionMissed.StoreIsMissed | src/data/token_store.rs:24-60 | A reachable state of the command-level machine, all handlers done, with a live unlisted token; a further complete revoke-all leaves it accepted |
| SessionMissed.OverlappedYetCovered | src/data/token_store.rs:24-60 | A reachable state in which a store overlapped a revoke-all and its token is live, listed and outlived by the index |
| SessionMissed.RefreshOutlivesRevokeAll | src/routes/mod.rs:219-234 | A run in which a refresh is past its GETDEL, a complete revoke-all leaves the user no live token, and the refresh then stores a new one that is listed and accepted |
| SessionTheorems.LinearRotation | src/routes/mod.rs:178-234 | In every reachable state a login's family has at most one live token or one handler about to store the next, never both |
| SessionTheorems.DeadStaysDead | src/data/token_store.rs:33-44 | A token that was stored and is no longer live is never live again, in any continuation |
| SessionTheorems.ConsumedOnce | src/data/token_store.rs:36-39 | Each token is taken at most once, by one refresh, one logout or one revoke-all |
| SessionTheorems.Conservation | src/data/token_store.rs:15-62 | Tokens ever stored are exactly the live, the taken by refresh, by logout, by revoke-all, and the expired; the five sizes add up, so the classes are disjoint |
| SessionTheorems.LiveAtMostLogins | src/routes/mod.rs:178-183 | A user never has more live refresh tokens than successful password logins |
| SessionTheorems.ClaimsAgree | src/routes/mod.rs:219-234 | The uid stored under a token equals `sub` of its claims, the claims are those of the login it descends from, and a user that still exists has that email: `refresh` may ignore the uid Redis returns |
| SessionTheorems.ChainsKeepClaims | src/routes/mod.rs:229-234 | All tokens of one rotation chain carry the same subject and email |
| SessionTheorems.LiveMeansAccepted | src/routes/mod.rs:214-227 | In every reachable state, the refresh token of a live key is accepted for as long as the key lives if and only if it was stored within leeway plus one second of being signed |
| SessionRevocation.ListedExactly | src/data/token_store.rs:50-60 | With no login or refresh of the user under way, the index lists every live token of the user if and only if none of them had the index deleted after its SADD |
| SessionRevocation.RevokeAllTakesSafe | src/data/token_store.rs:46-62 | In every interleaving, with any logins and refreshes under way: a token whose SADD came before SMEMBERS with no DEL of the index in between is dead when the revoke-all ends, no other token is on its list, and among the tokens live at the start the list is exactly those |
| SessionRevocation.SafeOrMissed | src/data/token_store.rs:46-62 | Every token added before the end is either such a token or a missed one, added during the revoke-all or unlisted by an earlier DEL of the index, and not both |
| SessionRevocation.RevokeAllLogsOutExactly | src/data/token_store.rs:46-62 | If no login or refresh of the user is past its check when the revoke-all ends, the user is logged out if and only if no missed token is live |
| SessionRevocation.RevokeAllLogsOut | src/data/token_store.rs:46-62 | So the user is logged out if no live token had lost its index before and no SADD of the user fell inside the revoke-all |
| SessionRevocation.BoundedAccessAfterRevokeAll | src/routes/mod.rs:208-241 | If the user is then logged out and does not log in again, the user never has a live refresh token, none is accepted, not even by a handler that checked it before, and no access token is accepted later than 900 seconds plus the leeway after the end of the revoke-all |
| Lockout.LockoutStore.IsLocked | src/data/lockout_store.rs:17-21 | Locked exactly at ten or more unexpired failures; a missing key counts as none |
| Lockout.LockoutStore.RecordFailure | src/data/lockout_store.rs:23-30 | One more failure, the window starts again at 900 seconds, and the answer is the new count |
| Lockout.LockoutStore.Clear | src/data/lockout_store.rs:32-36 | The email's counter is gone, no other key changes, and the email is not locked |
| Lockout.CounterIsLongestStreak | src/data/lockout_store.rs:5-30 | For every timed log of failures and clears, the counter is the length of the longest run of failures up to now with every gap below the window |
| Lockout.LockedMeansStreak | src/data/lockout_store.rs:17-21 | An email is locked if and only if its history ends in such a run of at least ten |
| LockoutMachine.FailuresBounded | src/routes/mod.rs:152-176 | With at most `k` logins in flight, count plus failures still to be recorded never exceeds `9 + k`, in any interleaving |
| LockoutMachine.UnfinishedBounded | src/data/lockout_store.rs:23-30 | With all unfinished logins past the check added, the sum exceeds `9 + k` by at most the logins between INCR and EXPIRE, so by nothing when there are none |
| LockoutMachine.UnfinishedBoundExactly | src/data/lockout_store.rs:23-30 | With one login at a time that sum is within 10 if and only if it is not the case that the email is locked and a login is between INCR and EXPIRE |
| LockoutMachine.UnfinishedWouldCountTwice | src/data/lockout_store.rs:23-30 | A reachable state with one login at a time where the sum is 11 |
| LockoutMachine.LockEndsAtDeadline | src/routes/mod.rs:152-156 | A lock with no login past its check holds in every state before its deadline and is gone in the first state at or after it, since locked attempts are not recorded |
| LockoutMachine.TenthFailureLocksFor900 | src/data/lockout_store.rs:24-30 | With one login at a time, with `d` the deadline of the ninth failure: from the tenth INCR the email is locked while `d` is to come; it is locked after the EXPIRE if and only if that ran before `d`, then for exactly 900 seconds; otherwise the count is zero |
| LockoutMachine.LockLostBeforeExpire | src/data/lockout_store.rs:24-30 | A reachable state, one login at a time, locked at count ten between INCR and EXPIRE; one second later EXPIRE leaves count zero and no lock |
| LockoutMachine.NoStuckLockout | src/data/lockout_store.rs:27-28 | A counter without expiry always has a login about to set one, so when none is in flight every counter expires |
| LockoutMachine.AttemptAlone | src/routes/mod.rs:152-176 | The machine's commands for a wrong, a right and an unknown attempt, back to back, have the effect the store's methods promise |
| RateLimit.CheckRateLimit | src/middleware/mod.rs:94-102 | Each call moves the keyspace by one request of the history below, and limits exactly when the counter was full; no other key changes |
| RateLimit.CounterIsWindow | src/middleware/mod.rs:94-102 | For every timed log of requests of a key, the counter is the number of requests since the one that opened the window, which is the first to come 60 seconds or more after the one that opened the window before; and it expires 60 seconds after that |
| RateLimit.LimitedExactly | src/middleware/mod.rs:65-102 | A request is turned away if and only if at least five came in the window open now, and the window is less than 60 seconds old |
| RateLimit.HitAlone | src/middleware/mod.rs:96-101 | A request of the machine whose commands run back to back does what the check promises, and is admitted alike |
| RateLimit.ExpireEndsWindow | src/middleware/mod.rs:98-100 | After EXPIRE the counter stands for 60 seconds and then reads zero |
| RateLimit.WindowEnds | src/middleware/mod.rs:96-101 | In every interleaving, a hit 60 seconds or more after the last EXPIRE, with none owed, opens a window and is admitted |
| RateLimit.InvariantStep | src/middleware/mod.rs:94-102 | Every command of every interleaving keeps the log of hits in windows whose starts are 60 seconds apart |
| RateLimit.NoStuckLimiter | src/middleware/mod.rs:96-100 | In every reachable state a key without expiry has the request that saw 1 still to run EXPIRE, and window starts are 60 seconds apart |
| RateLimit.HitsDoNotExtend | src/middleware/mod.rs:97-100 | A hit on a running window, admitted or not, changes no deadline and owes no EXPIRE |
| RateLimit.FirstFiveAdmitted | src/middleware/mod.rs:94-102 | Of a window's hits exactly the first five are admitted, in every run |
| RateLimit.AdmittedByStarts | src/middleware/mod.rs:65-66 | Admissions in an interval are at most five for each window start in it plus five for the window open before it |
| RateLimit.RateBound | src/middleware/mod.rs:65-102 | Any half-open interval of `L` seconds admits at most `5 * (1 + ceil(L / 60))` requests, in every interleaving |
| Validation.Find | src/routes/mod.rs:49-51 | The first occurrence, or none if and only if the byte does not occur |
| Validation.RFind | src/routes/mod.rs:65-67 | The last occurrence, or none if and only if the byte does not occur |
| Validation.ValidateEmailExact | src/routes/mod.rs:45-72 | The index form accepts exactly the strings of at most 254 bytes with one '@', a local part of 1 to 64 bytes (limits as in RFC 5321, section 4.5.3.1), and a domain with a dot that neither starts nor ends with one |
| Validation.SettablePasswordsAreUsable | src/routes/mod.rs:74-137 | A password that register, change or confirm accepts is never refused by the length checks of login or change |
| Repositories.StatementsKeepConstraints | migrations/0002_create_password_reset_tokens.up.sql:1-7 | Every statement, cascade included, keeps emails unique and reset rows referring to existing users |
| Repositories.UserRepository.Create | src/data/user_repository.rs:25-35 | Inserts the row, or reports a conflict and changes nothing when the email is taken |
| Repositories.UserRepository.FindByEmail | src/data/user_repository.rs:37-42 | Finds a row with the email, and none only if no row has it |
| Repositories.UserRepository.UpdatePassword | src/data/user_repository.rs:51-64 | Replaces that user's hash only; a missing user is an error and changes nothing |
| Repositories.UserRepository.Delete | src/data/user_repository.rs:66-72 | The user is gone with every reset token that was theirs; every other user and every other user's token is as it was |
| Repositories.ResetTokenRepository.Create | src/data/reset_token_repository.rs:16-33 | Adds an unused row, or fails without change for a repeated hash or a missing user, with the source's error for each |
| Repositories.ResetTokenRepository.Consume | src/data/reset_token_repository.rs:35-54 | Marks and returns the user if the row is unused and unexpired; unknown, used and expired rows change nothing |
| ResetMachine.InvariantStep | src/routes/mod.rs:414-487 | Every statement of interleaved requests, confirms, registrations and deletions keeps the constraints and the record of grants and uses |
| ResetMachine.ResetTokensSound | src/data/reset_token_repository.rs:37-54 | Over every run each token is consumed at most once, less than 900 seconds after it was made, for the user it was made for, and no row refers to a missing user |
| ResetMachine.UsedAtIsFinal | src/data/reset_token_repository.rs:40-45 | Once set, `used_at` keeps its value for as long as the row exists, and the token is never consumable again |
| ResetAlone.RequestAlone | src/routes/mod.rs:421-428 | The statements of a request, back to back, change the tables as the handler does |
| ResetAlone.ConfirmAlone | src/routes/mod.rs:470-479 | The statements of a confirm, back to back, change the tables as the handler does, new password included |
| Handlers.App.Register | src/routes/mod.rs:93-115 | Through the repository: a new row, a conflict, or a validation error, and nothing else changes |
| Handlers.App.Issue | src/routes/mod.rs:178-183 | Signs both tokens for one subject and stores the refresh token for 7 days |
| Handlers.App.Login | src/routes/mod.rs:145-190 | Through the stores: refuses a locked email unrecorded, records a wrong password only, clears and issues on success |
| Handlers.App.RefreshTokens | src/routes/mod.rs:208-241 | Through the store: consumes the old token before it issues a pair for the claims' subject |
| Handlers.App.Logout | src/routes/mod.rs:383-398 | Succeeds for every valid refresh token, live or not, and revokes it |
| Handlers.App.LogoutAll | src/routes/mod.rs:355-365 | Behind a valid access token, revokes the bearer's sessions |
| Handlers.App.ChangePassword | src/routes/mod.rs:279-302 | Only with the current password of an existing user; sets the new one |
| Handlers.App.DeleteMe | src/routes/mod.rs:306-315 | Behind a valid access token, deletes the bearer's row, also if it is already gone |
| Handlers.App.PasswordResetRequest | src/routes/mod.rs:414-443 | A row for the holder of the email, or the same answer and no change for an unknown email |
| Handlers.App.PasswordResetConfirm | src/routes/mod.rs:463-487 | Consumes, then updates, then revokes, and stops at the first of these that fails |
| HandlerAnswers.RegisterExactly | src/routes/mod.rs:93-115 | Succeeds if and only if the address is well-formed, the password has 8 to 128 bytes and the email is free, and then the row holds both; a well-formed request for a taken email is a conflict, a malformed one invalid; a failure changes nothing |
| HandlerAnswers.LoginExactly | src/routes/mod.rs:145-190 | Succeeds if and only if the request is well-formed, the email not locked, and the password that of the user with the email; a locked email, an unknown one and a wrong password are answered alike |
| HandlerAnswers.FailureLasts | src/data/lockout_store.rs:24-30 | A failed login counts for 900 seconds and not longer, and locks for that time if and only if nine were counted before |
| HandlerAnswers.ChangeExactly | src/routes/mod.rs:267-302 | Succeeds if and only if the access token checks, both passwords have admissible lengths, and the current one is that of the existing bearer; then exactly the new one verifies and other users keep theirs; a failure changes nothing |
| HandlerAnswers.DeleteExactly | src/routes/mod.rs:306-315 | Succeeds if and only if the access token checks; then the bearer's row and reset tokens are gone and everyone else's are as they were |
| HandlerAnswers.RequestExactly | src/routes/mod.rs:414-443 | The answer is the same for a known and an unknown email, except that a generated token that exists already is a conflict |
| HandlerAnswers.RequestEffect | src/routes/mod.rs:421-428 | A row appears if and only if the email is known and the token new: unused, for the holder of the email, for 900 seconds; nothing else changes |
| HandlerAnswers.ConfirmExactly | src/routes/mod.rs:454-487 | Succeeds if and only if the token is given, the password has 8 to 128 bytes, the row is unused and unexpired and its user exists; malformed requests and unusable tokens are told apart and change nothing |
| HandlerAnswers.SessionRefusals | src/routes/mod.rs:208-398 | What refresh, logout and logout-all refuse, they refuse as unauthorized and without any change |
| HandlerRuns.InvariantAfter | src/routes/mod.rs:93-487 | Every run of all handlers with fresh ids keeps the session stores consistent, the table constraints, and every row equal to what the history of events says |
| HandlerRuns.EventExplains | src/routes/mod.rs:93-315 | Each answered register, change, delete or confirm changes the users table by its event alone, and every other request leaves it as it was |
| HandlerRuns.PasswordsFollowHistory | src/routes/mod.rs:145-176 | After every run, a valid login on an unlocked email succeeds if and only if its password is the last one set for the user now holding the email |
| HandlerHistory.CounterFollowsAttempts | src/routes/mod.rs:152-176 | After every run of all handlers the counter of an email, now and at any later time, is that of the log of its failed and successful attempts |
| HandlerHistory.LockedMeansTenFailures | src/routes/mod.rs:152-176 | After every run of all handlers an email is locked if and only if the attempts on it end in ten failures, each gap and the time since the last below 900 seconds |
| HandlerHistory.NobodyShutOut | src/routes/mod.rs:74-137 | After every run the password in every row has 8 to 128 bytes, so it passes the length checks of login and change |
| HandlerHistory.ChangeFollowsHistory | src/routes/mod.rs:279-302 | After every run, a well-formed change behind a valid access token succeeds if and only if its current password is the last one set for the bearer |
| HandlerRuns.IssueEffect | src/routes/mod.rs:178-183 | Adds exactly one session; both tokens carry the subject, the email, their ids and the time of issue, and check as the kind they were issued for |
| HandlerRuns.LoginEffect | src/routes/mod.rs:145-190 | A success adds one session for the holder of the email and both tokens name that user and email; a failure adds none; a locked email changes nothing at all |
| HandlerRuns.LoginCounts | src/routes/mod.rs:152-176 | A success zeroes the counter, a wrong password of a known unlocked email raises it by exactly one, an unknown email, a locked one or a malformed request leaves it, and no other counter changes |
| HandlerRuns.LoginThenUse | src/routes/mod.rs:178-189 | The issued refresh token works for exactly 604800 seconds, the access token for exactly 900 plus the leeway, and neither as the other |
| HandlerRuns.RefreshEffect | src/routes/mod.rs:208-241 | Succeeds if and only if the token is genuine, unexpired and live; replaces that session by one new one of the same subject and email; the old token cannot be used again |
| HandlerRuns.RefreshThenUse | src/routes/mod.rs:229-240 | The pair a refresh answers with is for the same subject and email; its refresh token works for exactly 604800 seconds, its access token for exactly 900 plus the leeway, neither as the other, and the consumed token never |
| HandlerRuns.LogoutEffect | src/routes/mod.rs:355-398 | Logout succeeds if and only if the refresh token checks, live or not, and ends that session; logout-all if and only if the access token checks, and ends exactly the bearer's sessions; no counter, table or issued token changes |
| HandlerRuns.RequestThenConfirm | src/routes/mod.rs:414-487 | A reset confirmed `d` seconds after its request succeeds if and only if `d < 900`, and then the new password logs in |
| HandlerRuns.ConfirmEffect | src/routes/mod.rs:463-487 | After a confirm only the new password verifies for the user, the user's sessions and no others are gone, the token is used, and other users' rows, the counters and the issued tokens are unchanged |
| HandlerRuns.DeadForever | src/routes/mod.rs:208-234 | Over every run of handlers a signed token without a live entry never gets one |
| HandlerRuns.SpentForever | src/data/reset_token_repository.rs:37-54 | Over every run of handlers a used or deleted reset token is never usable again |
| HandlerRuns.ConfirmIsFinal | src/routes/mod.rs:463-487 | After a confirm and any further run, every refresh token signed for that user before it is refused, and so is the reset token |
| HandlerRuns.ChangeAndDeleteKeepSessions | src/routes/mod.rs:279-315 | Changing the password or deleting the account leaves sessions, counters and issued tokens as they were |

## Left out

- HTTP, gRPC, JSON and header parsing, server start, migrations, health checks, logging, message texts and status codes: no state.
- `/me` and the empty-token checks of refresh and logout: one branch each.
- Sending the reset email: its failure does not change any state.
- Redis and Postgres failures, crashes between two commands, and the limiter's fail-open path: the theorems are about runs whose commands succeed.
- Clock skew between the application, Redis and Postgres, and fractions of a second.
- Salts, UUID structure, `created_at` and `updated_at`; a hash here is a function of its password.
- Integer widths (`u32`, `u64` and `i64` counters and lifetimes): the counters stay far below them, and both callers pass the constant 7 days.
- A clock that advances inside one store's pipeline: `SessionMachine` rules it out, because an index about to expire could then vanish between SADD and EXPIRE.
- The lockout and password checks of login inside `SessionMachine`, where a login begins after them; `LockoutMachine` and `HandlerRuns` have them.
- The final revoke-all of a confirm inside `ResetMachine`, which follows the tables only; `HandlerRuns` has it.
- The limiter's other keys: `RateLimit` follows one key, since no command of a request touches another.
- HandlerRuns.ConfirmIsFinal: speaks of atomic handlers; a refresh already past its GETDEL when the confirm runs can still store a token, as `RefreshOutlivesRevokeAll` shows for its revoke-all.
