# Verification of the authentication service

This project models the parts of the service whose guarantees rest on the order of storage
writes, not on any single check, and proves them in Dafny:

- **The refresh-token life cycle.** Login, refresh, logout, logout from all devices and session
  revocation run on stateless instances against one Redis and one Postgres. Tokens rotate, with
  reuse detection, as in section 4.14.2 of RFC 9700.
- **The fixed-window rate limiter** that all instances share: INCR, a conditional EXPIRE, TTL.
- **The timeout middleware**, a race between the handler and the deadline over one response.
- **Email lookup**, where normal forms and a unique index make one account of every spelling.

`dafny verify dfyconfig.toml` checks all of it.

## How it is built

The token life cycle has two layers.

*Every interleaving.* `Protocol.dfy` is a state machine: a clock, the token keys with their
deadlines, the two index sets, the session rows, and any number of requests in flight, each with a
program counter and its local variables. One event is one storage command or one clock read of one
request; time passing, keys expiring, requests starting and requests being cut short are events
too. A sequence of events is an interleaving, and a request may stop after any of its steps.
`ProtocolInvariants.dfy` proves what every event keeps, by rely and guarantee: `Evolves` is what
one request may do to the others, and no request's local facts are disturbed by it.
`ProtocolTheorems.dfy`, `OneActiveToken.dfy`, `QuietScopes.dfy` and `Reopening.dfy` state the
results on runs from the empty store; `CompleteRuns.dfy`, `CompleteSweeps.dfy` and `LogoutRuns.dfy`
are about requests that no other request disturbs, and `DeadKeys.dfy` is about tokens whose key is gone.
The fields `births`, `order`, `marks`, `results` and `steps` are history; no step decides on them
except that ids and tokens are fresh.

*Serial.* `SerialRuns.dfy` and `SerialTheorems.dfy` are about runs in which
requests do not overlap, though each may stop after any step. `Stores.dfy`, `RefreshTokens.dfy`,
`Sessions.dfy`, `Tokens.dfy` and `AuthService.dfy` are the repositories and services as classes
that change one shared store in place. Every storage call may fail, with or without having taken
effect, and time passes before it. `env.sound` (`Environments.dfy`) says that nothing around the
service fails during a call, neither storage nor signing nor random bytes; no method can change
it, so what a contract promises under it is what the service does whenever it is let. `Store.Valid` says that the store is what a serial run of the
protocol leaves, and each service method extends that run by exactly one request of its own, in
every outcome (by none when its input is blank); so the theorems about runs hold of the store after
any sequence of calls. The parameter `rid` of a service method is that request's name in the history, and `random` and
`sessionId` are the random values drawn for it.

`RateLimiter.dfy` and `TimeoutResponse.dfy` are built alike: a machine with the theorems for every
interleaving, and the code in its own form (`RateLimitService.dfy`, the writer classes) shown to
follow the machine.

## What the proofs found

- In serial runs a session can be REVOKED and stay usable. Logging out with a token that has been
  rotated away revokes the session's row and that token, but not the session's ACTIVE token, and
  refresh never looks at the session: `CompleteRuns.StaleLogoutKeepsAccess`.
  `LogoutRuns.LogoutLeavesUsable` says exactly when a logout does this, and
  `SerialTheorems.RevokedSessionDead` that in serial runs nothing else does.
- Under overlap a refresh in flight does it too. If it has read its token ACTIVE before a logout
  with that token, it goes on after the logout, writes USED over REVOKED and creates a new token:
  `CompleteRuns.RefreshOvertakesLogout`. The same happens to LogoutAll, to reuse detection and to
  RevokeSession. `Reopening.UnusableForGoodIff` says, for every reachable state, exactly when a user
  or a session is out of reach for good.
- Two overlapping refreshes of one token both succeed and leave two usable tokens, because
  UpdateStatus is a read followed by a write: `CompleteRuns.OverlapMakesTwo`. Wherever two refreshes
  hold one unexpired token they can: `Reopening.TwoHoldersDouble`.
- A request cut short between its INCR and its EXPIRE leaves a counter without a deadline. Once
  that counter reaches the limit the key is blocked for good: `RateLimiter.CutShortSticks`,
  `RateLimiter.BlockedIffStuck`, and for any limit and window `RateLimiter.OneFailureBlocks`.
  Without failures it cannot happen: `RateLimiter.NeverBlocked`.
- A key can come back after its deadline, because UpdateStatus writes with a time to live that it
  computed before. Then a refresh that started after the deadline may report a reuse, and a logout
  revoke the session. `DeadKeys.DeadForGoodIff` and `DeadKeys.HarmlessIff` say exactly when.

## Model

| member | source | states |
|---|---|---|
| `OneActiveToken.AtMostOneActiveToken` | internal/service/auth_service.go:191-255 | Every interleaving in which no two refreshes are between read and mark of one token: a session's ACTIVE or held tokens and its pending creations are together at most one, and an ACTIVE token is the newest of its session |
| `CompleteRuns.OverlapMakesTwo` | internal/service/auth_service.go:191-255 | Without that condition it fails: for any ids and lifetime there is a run in which two refreshes redeem one token and the session has two usable tokens |
| `Reopening.TwoHoldersDouble` | internal/service/auth_service.go:191-255 | In every reachable state: if two refreshes hold one unexpired token, those two alone can go on, in no time, to two usable tokens of its session |
| `Reopening.UnusableForGoodIff` | internal/service/auth_service.go:182-369 | In every reachable state: no continuation without a login of the user makes a token of a user or session usable, if and only if the session exists, none is usable now, and no login or refresh in flight can still create one |
| `CompleteRuns.RefreshOvertakesLogout` | internal/service/auth_service.go:182-313 | Under overlap, for any ids: a logout with the session's ACTIVE token succeeds, and a refresh that had read that token then leaves the REVOKED session a usable one |
| `ProtocolTheorems.RevokedForGood` | internal/repository/session_repository.go:102-112 | Every interleaving: a REVOKED session stays REVOKED, and no session changes its user |
| `ProtocolInvariants.RunKeeps` | internal/repository/refresh_token_repository.go:46-189 | Every interleaving keeps the invariants of the store, the indexes, the marks and the local facts of every request in flight |
| `ProtocolTheorems.LeftActiveForGood` | internal/repository/refresh_token_repository.go:98-125 | Every interleaving: a token that has left ACTIVE is never ACTIVE again, and its user, session, creation and expiry never change, despite whole-record rewrites from stale reads |
| `ProtocolTheorems.SweptTokensUnusable` | internal/repository/refresh_token_repository.go:161-189 | Every interleaving: when a sweep gets through without an error, no token of its snapshot is usable, then or ever after |
| `ProtocolTheorems.KnownUntilExpiry` | internal/repository/refresh_token_repository.go:60-66 | Every interleaving: a token's key is never dropped before its expiry, so a redeemed token is recognised as not ACTIVE until then |
| `ProtocolTheorems.RefreshRotates` | internal/service/auth_service.go:217-255 | Every interleaving: a successful refresh marked its token while the expiry was strictly ahead, and stored a new token of the same user and session only after that |
| `ProtocolTheorems.DoubleRedemptionOverlaps` | internal/service/auth_service.go:191-245 | Every interleaving: two successful refreshes of one token had each read it before the other wrote its mark |
| `ProtocolTheorems.IndexesExact` | internal/repository/refresh_token_repository.go:65-69 | Every interleaving: a stored token is in exactly the user index and the session index its record names, and its user owns its session |
| `SerialTheorems.SerialRotation` | internal/service/auth_service.go:239-255 | Serial runs, stopping anywhere: at most one ACTIVE token for each session, all its predecessors are not ACTIVE, and no token is redeemed twice |
| `SerialTheorems.RevokedSessionDead` | internal/service/auth_service.go:204-364 | Serial runs in which each logout presents a token that is ACTIVE or absent, or whose session has no usable token anyway: a REVOKED session has no usable token and no refresh for it succeeds, in any later interleaving, although refresh never reads the session |
| `SerialTheorems.SilentUntilLogin` | internal/service/auth_service.go:315-338 | Serial runs: once a LogoutAll or a reuse detection has completed, no token of the user is usable and no refresh for the user succeeds, in any later interleaving, until a login of that user starts |
| `LogoutRuns.LogoutLeavesUsable` | internal/service/auth_service.go:277-301 | After a serial run, a logout with a known token that no other request disturbs, with any pauses and expiries: exactly the other tokens that were usable and are unexpired stay usable, the session is REVOKED unless the key had died, and it keeps a usable token if and only if the token presented was not ACTIVE and another one is left |
| `LogoutRuns.UnpresentableIffUsable` | internal/service/auth_service.go:277-301 | So a logout that leaves its session a usable token was not presentable, and one that is not presentable leaves one if it ends at once |
| `CompleteRuns.StaleLogoutKeepsAccess` | internal/service/auth_service.go:277-301 | The smallest serial run of that kind, for any ids: the session is REVOKED and a refresh with its second token succeeds |
| `CompleteRuns.RefreshCompletes` | internal/service/auth_service.go:182-275 | An undisturbed refresh of a usable token succeeds: the old token is USED, the new one ACTIVE for a whole lifetime in the same session |
| `CompleteSweeps.ReuseCompletes` | internal/service/auth_service.go:203-216 | After any run: a refresh of a USED token whose key lives, undisturbed, ends in the reuse error, in whatever order the members come; exactly the unexpired tokens and the session rows of its user are then REVOKED, and nothing else has changed |
| `CompleteSweeps.LogoutAllCompletes` | internal/service/auth_service.go:315-338 | After any run: an undisturbed LogoutAll succeeds with exactly that effect |
| `CompleteSweeps.RevokeSessionCompletes` | internal/service/auth_service.go:349-369 | After any run: an undisturbed RevokeSession succeeds for the owner and then exactly the unexpired tokens and the row of that session are REVOKED; a stranger is rejected, an absent session is an error, and neither changes anything |
| `DeadKeys.DeadForGoodIff` | internal/repository/refresh_token_repository.go:73-125 | In every reachable state: the key of a stored token is gone for good if and only if it is gone now and no request is about to write it |
| `DeadKeys.HarmlessIff` | internal/service/auth_service.go:191-301 | In every reachable state, once a token's key is gone: a refresh with it that starts now only ever reads and is rejected, and a logout with it only reads and ends, whatever else happens, if and only if no request is about to mark it USED or, for the logout, to write it at all |
| `DeadKeys.IdleChangesNothing` | internal/service/auth_service.go:191-301 | Such a request never changes a token, an index, a session row or a mark |
| `RevocationCalls.OneByOneOrAtOnce` | internal/service/auth_service.go:315-369 | Two services with one history: if one completes RevokeSession for every session of a user, in any order and with any pauses, and the other LogoutAll, they end with the same session rows and the same record of every token that has expired in neither |
| `Revocation.OneByOneIsLogoutAll` | internal/service/auth_service.go:326-364 | The same on the effects of completed calls, after any run, serial or not |
| `Revocation.IndexesPartition` | internal/repository/refresh_token_repository.go:65-69 | After any run the session indexes of a user's sessions partition the user's index on stored tokens |
| `Revocation.SweepReachesScope` | internal/repository/refresh_token_repository.go:131-189 | After a completed sweep no token of that user or session is usable, and every other token is exactly as it was |
| `Revocation.OneActivePerSession` | internal/service/auth_service.go:239-255 | After any sequence of service calls, failures included, two ACTIVE tokens of one session are the same token |
| `Revocation.RevokedSessionUnusable` | internal/service/auth_service.go:291-301 | After any sequence of service calls whose logouts were all presentable, no token of a REVOKED session is usable |
| `AuthService.AuthService.RefreshAccessToken` | internal/service/auth_service.go:182-275 | Success needs a token usable at the start whose user exists, rotates it, changes nothing else, and implies that the session was ACTIVE if all logouts so far were presentable. A refusal changes nothing and has a reason by status: REVOKED, used with its key gone, or expired or without its user. If nothing around it fails, a USED token whose key lives always has everything of its user revoked, and the only error is a new token that outlived its lifetime before it was stored. With a key that was gone at the start nothing changes in any outcome |
| `AuthService.RefreshedAlive` | internal/service/auth_service.go:203-261 | The link from runs to calls: a refresh after a history of presentable logouts succeeds only on an ACTIVE session |
| `AuthService.AuthService.Login` | internal/service/auth_service.go:49-128 | Blank input is refused; if nothing around it fails, the credentials are invalid if and only if no account under this spelling has this password; success adds one ACTIVE session with one ACTIVE token of that user and changes nothing else |
| `AuthService.AuthService.Logout` | internal/service/auth_service.go:277-313 | The presented token, if unexpired to the end, is REVOKED whatever its status was, and its session with it; one whose key was gone at the start changes nothing, in every outcome; no other token or session is ever touched; it succeeds if nothing around it fails |
| `AuthService.AuthService.LogoutAll` | internal/service/auth_service.go:315-338 | Success revokes every unexpired token and every session row of the user and leaves all other rows as they are; in every outcome no token of anybody else is touched; it succeeds if nothing around it fails |
| `AuthService.AuthService.RevokeSession` | internal/service/auth_service.go:349-369 | Only the owner can revoke; success revokes every unexpired token of the session and its row, and no other row; if nothing around it fails the owner succeeds, a stranger is rejected and an absent session is an error |
| `AuthService.AuthService.Register` | internal/service/auth_service.go:130-180 | Success adds exactly one account, unverified, under an email without capitals or outer white space that the input spells and that nobody had in any spelling; a duplicate changes nothing; if nothing around it fails it is one of these |
| `RefreshTokens.RefreshTokenRepository.FindByToken` | internal/repository/refresh_token_repository.go:73-96 | Answers with the stored record, only strictly before the key's deadline; "not found" means that there is no key or its deadline has come; one of the two if the call does not fail |
| `RefreshTokens.RefreshTokenRepository.Create` | internal/repository/refresh_token_repository.go:46-71 | All or nothing: the record with a key that outlives it, and both index entries; refused once the expiry has come |
| `RefreshTokens.RefreshTokenRepository.UpdateStatus` | internal/repository/refresh_token_repository.go:98-125 | Success rewrites the status alone, of a token not yet expired, under a key that outlives it; "not found" changes nothing and the token is gone or expired; a key gone at the start is never found nor written; a failure did one or the other |
| `RefreshTokens.RefreshTokenRepository.RevokeByToken` | internal/repository/refresh_token_repository.go:127-129 | The same for REVOKED, from any status |
| `RefreshTokens.RefreshTokenRepository.RevokeAllByUser` | internal/repository/refresh_token_repository.go:161-189 | For any order of the members: one scan that revokes every unexpired token of the user and leaves all others alone; a failure leaves such a scan unfinished |
| `RefreshTokens.RefreshTokenRepository.RevokeAllBySession` | internal/repository/refresh_token_repository.go:131-159 | The same for the tokens of one session |
| `Sessions.SessionRepository.Create` | internal/repository/session_repository.go:27-59 | One new row and nothing else; a failed insert may have happened |
| `Sessions.SessionRepository.ListByUserID` | internal/repository/session_repository.go:61-94 | Unless it fails: the rows of the user as they are, each once, newest first, and no others |
| `Sessions.SessionRepository.UpdateLastUsedAt` | internal/repository/session_repository.go:96-100 | Changes the time of last use of one row, to a moment between call and return, and nothing else |
| `Sessions.SessionRepository.UpdateStatus` | internal/repository/session_repository.go:102-106 | Revokes one row if it is there, and changes nothing else |
| `Sessions.SessionRepository.RevokeAllByUserID` | internal/repository/session_repository.go:108-112 | Revokes the ACTIVE rows of the user and changes nothing else |
| `Sessions.SessionRepository.FindByID` | internal/repository/session_repository.go:114-136 | The row with that id if there is one; in RevokeSession the request goes on only for its owner |
| `Tokens.TokenService.GenerateRefreshToken` | internal/service/token_service.go:97-111 | A token never generated before, ACTIVE, with a whole lifetime from now |
| `RateLimiter.AllowedBound` | internal/service/rate_limit_service.go:28-56 | Every interleaving, failures included: at most (ceiling(T / window) + 1) * limit requests are allowed over any half-open interval of length T, timed at their INCR; at most 2 * limit in any window |
| `RateLimiter.ExpireLandsOnItsOwn` | internal/service/rate_limit_service.go:33-37 | Every interleaving: an EXPIRE lands on the live generation whose INCR returned 1 to that request, which then lives at least a window from its first INCR |
| `RateLimiter.GenerationCounts` | internal/service/rate_limit_service.go:28-53 | Every interleaving: the INCRs of a generation return exactly 1..n, so exactly min(n, limit) are within the limit, and generations start at least a window apart |
| `RateLimiter.AnswersRight` | internal/service/rate_limit_service.go:39-56 | Every interleaving: an answer allows exactly the counts within the limit, reports what is left, and a wait between 1 and the window |
| `RateLimiter.AnswerTellsWait` | internal/service/rate_limit_service.go:39-56 | Every interleaving: the wait in an answer is the time the counter's deadline is away at that moment, and the window if it has none |
| `RateLimiter.WaitIsExact` | internal/service/rate_limit_service.go:28-56 | So, as long as no other request is counted, a request before that wait is over gets the next count, and one at or after its end gets count 1 |
| `RateLimiter.BlockedIffStuck` | internal/service/rate_limit_service.go:33-53 | A key is blocked for good if and only if its counter has reached the limit without a deadline and no request is left that would set one |
| `RateLimiter.CutShortSticks` | internal/service/rate_limit_service.go:33-37 | A request that fails between its INCR and its EXPIRE leaves the key in that state |
| `RateLimiter.OneFailureBlocks` | internal/service/rate_limit_service.go:28-53 | For any limit and window there is a run in which one such failure blocks the key for good |
| `RateLimiter.NeverBlocked` | internal/service/rate_limit_service.go:33-45 | Runs without failures: no key is ever blocked for good, and the first request at or after the deadline gets count 1 |
| `RateLimitService.RateLimitService.Allow` | internal/service/rate_limit_service.go:25-58 | A call is a run of the machine by one new request, in every outcome: counter, clock and answer are those of the run, and the wait is the time the counter has left on return; no other key is touched; it answers if nothing around it fails |
| `RateLimitService.KeysApart` | internal/service/rate_limit_service.go:26-26 | Scopes without a colon never share a counter key, whatever the identifiers |
| `RateLimitService.FormatRetryAfter` | internal/middleware/rate_limit_middleware.go:56-63 | At least 1, and never more than the whole seconds of the duration otherwise |
| `RateLimitService.RateLimit` | internal/middleware/rate_limit_middleware.go:13-32 | After any history of the key: a request goes on only if the limiter allowed it; a refusal is a 429 whose Retry-After is the time the counter has left in whole seconds, at least 1; a failed check is a 500, and there is none if nothing around it fails |
| `TimeoutResponse.OneWholeResponse` | internal/middleware/middleware.go:117-147 | Every interleaving of writes, return and deadline: at most one status and one body ever reach the client, in the end either the timeout error (504) alone or the handler's whole response, by the positions of its operations: the first status it chose (200 for a write or none), its bytes in order, and for each header the value set last and all added after it; late writes change nothing |
| `TimeoutResponse.CanFinish` | internal/middleware/middleware.go:133-147 | Once the handler has returned, or the deadline has passed, the middleware can go on to a finished response: the handler's if it has returned |
| `TimeoutResponse.AppliedHolds` | internal/middleware/middleware.go:36-53 | After any operations the buffer holds the first status chosen, the concatenation of all writes and, for each header, what the operations asked for |
| `TimeoutResponse.TimeoutResponseWriter.WriteHeader` | internal/middleware/middleware.go:40-45 | Later statuses do not change the first |
| `TimeoutResponse.TimeoutResponseWriter.Write` | internal/middleware/middleware.go:47-53 | Bytes are appended, and choose 200 if nothing was chosen before |
| `TimeoutResponse.CopyHeader` | internal/middleware/middleware.go:244-250 | For any order of the keys: each key keeps its values and gets all those of the source after them |
| `TimeoutResponse.SendBuffered` | internal/middleware/middleware.go:133-141 | The client gets one status, one body and the merged headers of the handler |
| `TimeoutResponse.Select` | internal/middleware/middleware.go:133-144 | Whichever ready case is taken, the client gets one status and one body, both the handler's or both the timeout's |
| `Users.EmailsUnique` | internal/repository/user_repository.go:76-88 | In every run, two users whose emails differ only in the case of ASCII letters and outer white space are one |
| `Users.FoundByAnySpelling` | internal/repository/user_repository.go:30-38 | Ever after a registration, every spelling, with any of the six ASCII spaces around it and any letters in the other case, finds exactly that user, and nobody else can register under any of them |
| `Users.UserRepository.FindByEmail` | internal/repository/user_repository.go:30-51 | The answer is the only user whose stored email this spells; "not found" means there is none |
| `Users.UserRepository.CreateUser` | internal/repository/user_repository.go:76-111 | Success adds one row under an email that the argument spells, without capitals or outer white space, and that nobody had in any spelling; a duplicate adds none and somebody has it |
| `Strings.NormalizeIdempotent` | internal/service/auth_service.go:131-150 | Trimming and lower-casing in the service and again in the repository is the same as doing it once |
| `Strings.SpellingsNormalize` | internal/repository/user_repository.go:38-38 | Two strings have one normal form if and only if they are equal, character by character, up to outer white space and the case of ASCII letters |
| `Strings.NormalForm` | internal/repository/user_repository.go:38-38 | A normal form has no capital letter and none of the six ASCII spaces at its ends, and is the trimmed string up to case |
| `Strings.SpellsIff` | internal/repository/user_repository.go:38-38 | A string normalises to a stored email if and only if it spells it |

## Left out

- AtMostOneActiveToken: assumes that no two refreshes are between their read and their mark of one token, because UpdateStatus does not prevent it; `Reopening.TwoHoldersDouble` shows that two such refreshes of an unexpired token can always break the bound.
- RevokedSessionDead: assumes serial runs and presentable logouts. Under overlap a refresh in flight can outlive the revocation; `Reopening.UnusableForGoodIff` is the exact condition there.
- SilentUntilLogin: the run up to the LogoutAll or reuse detection is serial. Under overlap a login or a refresh of the user that is already in flight can still issue a token; `Reopening.UnusableForGoodIff` says when.
- UnusableForGoodIff: is about usable tokens, under a positive token lifetime; a refresh that stored its token before the revocation can still answer with it.
- LogoutLeavesUsable: no other request moves during the logout.
- OneByOneIsLogoutAll: compares tokens still unexpired at the end; expired ones may keep different statuses. The service has no operation that revokes in turn; `RevocationCalls.RevokeInTurn` only makes the calls.
- Sessions.SessionRepository.UpdateStatus: fixed to REVOKED, the only status the service passes.
- Exactly-once redemption under overlapping refreshes of one token: the code does not provide it.
- Overlap in the classes: the service methods run one at a time; overlapping requests are the matter of `Protocol.dfy` and, for the limiter and the timeout, of their machines.
- Revivals in the classes: a dead key comes back only under overlap, so `RefreshAccessToken` and `Logout`, which run alone, promise without a condition what `DeadKeys.HarmlessIff` gives under one.
- CompleteSweeps and CompleteRuns: no time passes during an undisturbed request; the contracts of the service methods allow any pauses.
- A reply lost after the last write: the store's history records the request's success, the method may still answer with a failure.
- JWT signing and validation, bcrypt, random bytes, base64 and UUIDs: ids and tokens are fresh parameters, the password check is an abstract function, signing may fail, and a hash that could not be made is an absent parameter of Register.
- Audit logging: its failures are swallowed and it never affects a result.
- JSON encoding of records: an exact round trip.
- Windows that are not whole seconds: EXPIRE takes whole seconds, and the configured windows are.
- Clock skew between instances, Redis failover and eviction, and the rounding of TTL replies: there is one integer clock, and a key is there strictly before its deadline.
- Other keys of the rate limiter in its machine: keys do not interact, so the machine has one; `RateLimitService.Allow` leaves the others alone.
- rateLimitIdentifier: plain text handling of request headers.
- Header canonicalisation, statuses that allow no body, invalid status codes and a panicking handler in the timeout middleware: header keys are taken as canonical.
- Email characters outside ASCII, and the 255-character limit of the column.
- ListSessions, Chain, CORS, request ids, security headers, logging, routing, cookies, configuration and health checks: one-branch plumbing.
