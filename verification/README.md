# Comment manager: the concurrent core, modelled and proved

This project models the timed, concurrent in-memory state behind authentication and comment posting in
the Bitrix24 comment manager: an Express back end and a browser extension. It is written in Dafny 4.11;
`dafny verify dfyconfig.toml` checks all of it.

Asynchronous code is cut into steps at every `await`: one step is one synchronous stretch of a handler,
loop or timer. The clock is a value passed to each step that never goes back. Theorems are about every
event sequence such a system can go through. Where the source updates module variables, a class does the
same with one method per stretch, and each method is proved to act on the state as the step function does;
the run theorems are then about the step functions.

| module | what it models |
|---|---|
| `RateLimiter` | the fixed-window limiters over two shared maps, and the sweep of finished windows |
| `DuplicateGuard` | the time-ordered claim array and the POST handler's claim, send, release sequence |
| `RetryLoop` | the retry loop of one Bitrix24 call over five kinds of outcome |
| `PortalQueue` | the per-portal queue and its drain loop |
| `RefreshRotation` | coalesced refreshes, logins and logouts against a server that rotates its refresh token (section 6 of RFC 6749) |
| `RefreshOutcomes` | what each caller of such a refresh is told, seen by an observer of events |
| `PortalHosts` | the host-name grammar, the wildcard allowlist, the configured list, a login's portal |
| `TokenService` | JSON Web Tokens, the revocation list and OAuth states, with both sweeps |
| `AuthRoutes` | login, callback, poll, refresh and logout over every interleaving (sections 4.1 and 10.12 of RFC 6749) |
| `SessionIdentity` | whom the tokens and sessions of those routes belong to, seen by an observer of events and answers |
| `TokenManager` | the extension's cached token, its timer and its suspended refresh |
| `TwoProcess` | extension and back end together over a network that loses and delays refreshes, sign-ins and logouts |
| `LoginPoller` | the extension's login poll against the back end's poll limiter |
| `Base64`, `Attachment` | chunked encoding on one end, textual checks and limits on the other (section 4 of RFC 4648) |
| `SecretFraming`, `TokenStore` | the `v1` frame of a stored secret and the read-through token cache over the table |
| `Text`, `Common` | string operations and result types used above |

Some results are negative, and stated as exactly as the positive ones:

- No portal is ever throttled in a process that starts with an empty map: the queue a failing call creates
  is removed again before the drain it starts can wait (`PortalQueue.NeverPopulatedFromEmpty`). The drain
  loop is therefore proved from an arbitrary starting queue as well.
- A rotated refresh token that misses the client strands its member until the next login, which restores it;
  this can happen on the first refresh (`RefreshRotation.LostReplyStrandsUntilLogin`,
  `RefreshRotation.LoginRestoresTheMember`, `RefreshRotation.LossIsReachable`).
- While a logout is under way the extension still holds a token the back end may already have revoked
  (`TwoProcess.TokenAcceptedUnlessConsumed`).
- A renewed token that is already inside its own refresh buffer is left with no timer, and one that shortens
  a login still being written may be left with a late one (`TokenManager.StepKeepsAttended`,
  `TokenManager.ShortLifetimeStrands`, `TokenManager.ShorterRenewalOutwaits`).
- The burst bound needs a window of positive length (`RateLimiter.ZeroWindowRefusesNothing`).
- Tokens come back after a removal exactly when their row could not be deleted
  (`TokenStore.FailedDeleteBringsTokensBack`).

Where the repository's texts and its code differ, the code is followed. DOMAIN.md, README.md and the header
of the comment routes speak of a sliding window; the limiters use a fixed one. DOMAIN.md says a comment is
compared with recent audit entries; the code compares it with an in-memory array. ARCHITECTURE.md says the
client queues requests after a 503; as shipped every call goes direct. DOMAIN.md names status 429 as what
triggers the retries; the code retries on 503.

## Model

| member | source | states |
|---|---|---|
| RateLimiter.Limiters.AgentRequest | backend/src/middleware/rateLimiter.ts:90-121 | the agent middleware changes only its map, at one key, as one request step does, and answers by the updated entry |
| RateLimiter.Limiters.IpRequest | backend/src/middleware/rateLimiter.ts:145-176 | the address middleware does the same at the prefixed key, with a stand-in for a missing address |
| RateLimiter.Limiters.PruneExpiredEntries | backend/src/middleware/rateLimiter.ts:24-45 | the timer removes exactly the finished windows from both maps |
| RateLimiter.WithoutFinished | backend/src/middleware/rateLimiter.ts:24-45 | visiting the keys in any order leaves the unfinished entries, unchanged |
| RateLimiter.Isolation | backend/src/middleware/rateLimiter.ts:24-45 | sweeps and other keys anywhere in a trace change no verdict of a set of keys |
| RateLimiter.PrefixesSeparate | backend/src/middleware/rateLimiter.ts:150-156 | with colon-free prefixes, keys of two limiters never meet, and one limiter's keys meet only for the same address |
| RateLimiter.LimiterAlone | backend/src/routes/auth.ts:18-19 | each address limiter answers on any interleaved, swept trace as it would alone |
| RateLimiter.OneKeyOfManyIsSolo | backend/src/middleware/rateLimiter.ts:90-121 | one key of a shared, swept map behaves as a limiter that sees only that key's request times |
| RateLimiter.BurstBound | backend/src/middleware/rateLimiter.ts:79-83 | for any trace, key, budget and start, k window lengths admit at most k + 1 budgets (k = 1 is the documented twice the limit) |
| RateLimiter.BurstBoundIsTight | backend/src/middleware/rateLimiter.ts:79-83 | for every budget and k there are requests that reach the bound |
| RateLimiter.RefusedOnlyWhenFull | backend/src/middleware/rateLimiter.ts:97-117 | in every trace a key is refused only if its whole budget was used up less than a window before |
| RateLimiter.ZeroWindowRefusesNothing | backend/src/middleware/rateLimiter.ts:97-102 | a zero-length window admits every request, so the bound fails without a positive window |
| RateLimiter.RefusalsAreHonest | backend/src/middleware/rateLimiter.ts:108-117 | in every trace each refusal's wait is between 1 s and the window rounded up; the key's next request, if any, is admitted after it (if the limit admits any) and refused when made a second too early |
| DuplicateGuard.CommentGate.DetectDuplicate | backend/src/middleware/commentValidator.ts:90-131 | prune, search and claim leave the array and verdict of one submit step; a missing or non-string body passes unchecked |
| DuplicateGuard.CommentGate.PruneExpiredEntries | backend/src/middleware/commentValidator.ts:137-152 | the counting loop and front splice remove the longest expired prefix |
| DuplicateGuard.CommentGate.ReleaseDuplicate | backend/src/middleware/commentValidator.ts:119-127 | the release closure removes the entry with its identity, or nothing |
| DuplicateGuard.CommentGate.FinishPost | backend/src/routes/comments.ts:65-121 | a failed send gives its claim back, a successful one leaves the array as it is |
| DuplicateGuard.PrefixIsEverythingExpired | backend/src/middleware/commentValidator.ts:137-152 | on the time-ordered array the expired prefix is every expired entry and no other, and order is kept |
| DuplicateGuard.ReleaseRemovesOnlyItsOwn | backend/src/middleware/commentValidator.ts:119-127 | a release removes exactly its own claim and keeps the order |
| DuplicateGuard.SameVerdictAsHistory | backend/src/middleware/commentValidator.ts:90-107 | the pruned array finds a duplicate exactly when the full history of unreleased claims has one in the window |
| DuplicateGuard.RunKeepsInv | backend/src/middleware/commentValidator.ts:90-153 | order, backing, coverage and spacing of claims survive every run of submits, ends and prunes |
| DuplicateGuard.ClaimsMatchRequests | backend/src/routes/comments.ts:65-121 | in every reachable state the claims inside the window are exactly those of requests in flight or audited SUCCESS, and the next verdict is that of the full history |
| DuplicateGuard.SuccessesAreAWindowApart | backend/src/routes/comments.ts:65-121 | two posts with one key that both succeed were accepted at least one window apart |
| DuplicateGuard.NothingStaleAfterPrune | backend/src/middleware/commentValidator.ts:137-152 | after a prune in any run no entry is older than the window |
| DuplicateGuard.FailedSendIsForgotten | backend/src/middleware/commentValidator.ts:107-129 | after a failed send the verdict for any key is that of a history without the failed post |
| DuplicateGuard.SubmitAnswers | backend/src/middleware/commentValidator.ts:90-131 | a submit passes unchecked without a body, is a duplicate exactly for an unreleased claim of its key in the window, and else becomes a claim |
| DuplicateGuard.PhaseIsFirstEnd | backend/src/routes/comments.ts:65-121 | in every run a claim keeps its key and time, and counts as succeeded or failed exactly as the first end of its send was |
| DuplicateGuard.AcceptedHoldsItsKey | backend/src/routes/comments.ts:74-104 | in every run an accepted comment is refused for the whole window, while its send is under way and after it succeeded |
| DuplicateGuard.FailedSendFreesItsKey | backend/src/routes/comments.ts:105-121 | after its send failed the same comment is accepted again at once |
| RetryLoop.CallBitrixApiDirect | backend/src/services/bitrix24Client.ts:283-353 | at most four attempts; only a refresh, a 503 or a transport failure is tried again, data and any other failure end the call at once and are its result; a first attempt that waits waits 1 s; exhaustion throws the latest failure that was not a 401, or the generic one; each attempt carries the newest token; waits total at most 7000 ms |
| RetryLoop.BackoffDoublesToTheCap | backend/src/services/bitrix24Client.ts:96-99 | the wait starts at 1 s, doubles per attempt and meets the 30 s cap exactly from attempt 5 on |
| RetryLoop.LatestFailureMeaning | backend/src/services/bitrix24Client.ts:292-352 | the failure thrown is that of the last attempt that yielded no token, or the generic one if every attempt did |
| RetryLoop.NewestTokenMeaning | backend/src/services/bitrix24Client.ts:291-326 | the token of an attempt is the one of the last refresh before it, or the caller's |
| RetryLoop.TokenByOutcome | backend/src/services/bitrix24Client.ts:291-326 | the first attempt carries the caller's token, each later one what the attempt before brought, if anything |
| RetryLoop.WaitsByOutcome | backend/src/services/bitrix24Client.ts:305-347 | a 503, a transport failure and an empty refresh cost a wait, a refresh none; the waits are 1, 2 and 4 s |
| RetryLoop.BackoffTotal | backend/src/services/bitrix24Client.ts:96-99 | n attempts of any outcomes sleep at most 1000 * (2^n - 1) ms |
| RetryLoop.DelaysBounded | backend/src/services/bitrix24Client.ts:283-353 | the three sleeps a call can make total at most 7000 ms |
| PortalQueue.PortalQueues.CallBitrixApi | backend/src/services/bitrix24Client.ts:366-397 | a call goes direct, is queued or is refused at 100 entries, and touches one portal only |
| PortalQueue.PortalQueues.DirectCallFailed | backend/src/services/bitrix24Client.ts:399-428 | a query-limit failure creates an empty queue and runs its drain to the first await, other portals untouched |
| PortalQueue.PortalQueues.DrainQueue | backend/src/services/bitrix24Client.ts:233-247 | the guard against a second drain and the first turn of the loop, for one portal |
| PortalQueue.PortalQueues.CallReturned | backend/src/services/bitrix24Client.ts:247-272 | the entry in call is settled with what its call gave, an Error or made one, then the loop throttles or leaves |
| PortalQueue.RunKeepsInv | backend/src/services/bitrix24Client.ts:233-273 | drain flag, queue, order and spacing stay consistent through every interleaving of arrivals and awaits |
| PortalQueue.AdmissionByQueue | backend/src/services/bitrix24Client.ts:373-397 | absent from the map goes direct, fewer than 100 waiting joins the end, a full queue is refused without change |
| PortalQueue.RateLimitedCallsThrottle | backend/src/services/bitrix24Client.ts:408-413 | the error left by a call refused with a 503 throttles, as does any with the word in it; failures of other kinds never do |
| PortalQueue.DrainContract | backend/src/services/bitrix24Client.ts:233-273 | from any queue: entries settle once each, in arrival order and with what their own call gave, calls never overlap and start 500 ms after the previous settled, the queue stays bounded, and the portal leaves the map only when all are settled |
| PortalQueue.DrainFinishes | backend/src/services/bitrix24Client.ts:233-273 | whatever the calls answer, a drain with no further arrivals hands every caller its own answer, in order, and drops the portal |
| PortalQueue.NeverPopulatedFromEmpty | backend/src/services/bitrix24Client.ts:413-418 | from an empty map no event sequence ever leaves the portal in the map, so every call goes direct |
| RefreshRotation.TokenRefresher.RefreshAccessToken | backend/src/services/bitrix24Client.ts:164-176 | a caller joins the member's exchange in flight or starts and registers one |
| RefreshRotation.TokenRefresher.ReceiveReply | backend/src/services/bitrix24Client.ts:130-155 | a granted pair enters the cache before its row is written; a refusal settles the exchange |
| RefreshRotation.TokenRefresher.Finally | backend/src/services/bitrix24Client.ts:164-176 | settling drops the registration and resumes exactly the callers of that exchange |
| RefreshRotation.TokenRefresher.LoggedIn | backend/src/services/tokenStore.ts:76-81 | a login puts its pair in the cache and disturbs no exchange |
| RefreshRotation.TokenRefresher.LoggedOut | backend/src/services/tokenStore.ts:150-154 | a logout takes the member's pair out of the cache and disturbs no exchange |
| RefreshRotation.StepKeepsInv | backend/src/services/bitrix24Client.ts:117-176 | every step of any member, login, logout and late answer included, keeps the one-exchange registration and the relation of cached to newest token |
| RefreshRotation.RunKeepsInv | backend/src/services/bitrix24Client.ts:117-176 | so does every interleaving for any number of members and callers, with logins and logouts between a member's exchanges and requests answered late |
| RefreshRotation.EveryExchangePresentsTheNewest | backend/src/services/bitrix24Client.ts:117-176 | in every run a member has at most one exchange, and it presents the token the server accepts exactly when no rotation missed the client since the member's last login |
| RefreshRotation.CoalescedCallersShareTheToken | backend/src/services/bitrix24Client.ts:164-176 | every caller of an exchange, and no other, resumes with the access token it stored |
| RefreshRotation.NewestWhileNothingMisses | backend/src/services/bitrix24Client.ts:117-176 | in every run in which no rotation misses the client, each exchange presents the newest token and is granted a new pair |
| RefreshRotation.LossNeedsAMiss | backend/src/services/bitrix24Client.ts:117-157 | a member is lost only through a lost reply or a request answered after the client gave it up |
| RefreshRotation.LostReplyStrandsUntilLogin | backend/src/services/bitrix24Client.ts:117-157 | after one missed rotation every exchange of that member is refused until its next login |
| RefreshRotation.LoginRestoresTheMember | backend/src/routes/auth.ts:319-325 | a login in any reachable state makes the member's exchanges succeed again, until a rotation next misses the client |
| RefreshRotation.LossIsReachable | backend/src/services/bitrix24Client.ts:117-157 | that loss can happen to any member with cached tokens on its first refresh |
| RefreshRotation.LateAnswerIsReachable | backend/src/services/bitrix24Client.ts:117-137 | so can one whose request was given up and answered later |
| RefreshOutcomes.CallersLearnTheirExchange | backend/src/services/bitrix24Client.ts:117-176 | in every run a caller has resumed exactly when the exchange it awaits has ended: with the access token granted to that exchange if it stored its pair, with the error if it found no tokens, failed in transport, lost its reply or was refused |
| RefreshOutcomes.NobodyElseIsTold | backend/src/services/bitrix24Client.ts:164-176 | a step resumes callers of the exchange it ends and changes nothing for any other |
| RefreshOutcomes.GrantedPairIsStored | backend/src/services/bitrix24Client.ts:148-157 | when callers resume with a token, the pair the server granted their exchange is the one stored |
| PortalHosts.GrammarByLabels | backend/src/routes/auth.ts:70-75 | a text matches the grammar exactly when its dot-separated labels are well-formed labels and a top level |
| PortalHosts.AcceptedHost | backend/src/routes/auth.ts:70-75 | splitting an accepted host on dots and joining gives it back, and it is already trimmed and lower-case |
| PortalHosts.HostsOfTheStandard | backend/src/routes/auth.ts:70-75 | a host is accepted exactly when it has at most 253 characters, labels of 1 to 63 lower-case letters, digits and inner hyphens, and a top level of letters |
| PortalHosts.WildcardMeansProperSuffix | backend/src/config.ts:116-132 | entry `*.s` allows a host exactly when the labels of s are a proper suffix of its labels |
| PortalHosts.AllowlistMeaning | backend/src/config.ts:116-132 | an accepted host is allowed exactly by `*`, by itself, or by a wildcard it properly extends |
| PortalHosts.PortalListRoundTrip | backend/src/config.ts:84-103 | parsed entries are clean, and clean entries written as a comma list parse back, from either setting |
| PortalHosts.EntriesOneByOne | backend/src/config.ts:84-103 | each part of the list yields its trimmed lower-case entry, in order, and a blank one none |
| PortalHosts.SettingsDecide | backend/src/config.ts:84-103 | the list setting wins when it says anything, and an empty result is refused exactly when one is required |
| PortalHosts.ResolvedPortalIsServed | backend/src/routes/auth.ts:84-105 | a login's portal is well-formed and allowlisted, and asking for it by name resolves to it |
| PortalHosts.RequestDecides | backend/src/routes/auth.ts:84-105 | the portal asked for decides, trimmed and lower-case, a missing or blank request falling back to the configured one, and each refusal has its exact cause |
| TokenService.Tokens.ValidateOAuthState | backend/src/services/tokenService.ts:119-132 | any attempt to use a state removes it, and it was good if at most 300 s old |
| TokenService.Tokens.VerifyJwt | backend/src/services/tokenService.ts:166-182 | a token verifies exactly when it was signed, its exp is in the future and it is not on the list |
| TokenService.Tokens.CleanupTick | backend/src/services/tokenService.ts:42-72 | both sweeps together, proved against map comprehensions |
| TokenService.WithoutBelow | backend/src/services/tokenService.ts:42-72 | a sweep in any key order keeps exactly the entries not below the limit |
| TokenService.SweptAnswersTheSame | backend/src/services/tokenService.ts:42-72 | a swept vault verifies tokens and validates states as the unswept one does, and stays a swept version of it |
| TokenService.SweepIsSweptOf | backend/src/services/tokenService.ts:42-72 | what a sweep removes was no longer able to matter: expired revocations and states too old to use |
| TokenService.CleanupForgets | backend/src/services/tokenService.ts:42-72 | a sweep forgets exactly the revocations of expired tokens and the states more than 300 s old |
| TokenService.SecondsHavePassed | backend/src/services/tokenService.ts:138-160 | times in tokens are whole seconds rounded down |
| TokenService.VerifiedIsLive | backend/src/services/tokenService.ts:166-194 | a retired token never verifies, even after its revocation was swept |
| TokenService.RenewalIsOneForOne | backend/src/routes/auth.ts:401-424 | revoking one accepted token and signing another changes the accepted set by exactly those two |
| AuthRoutes.AuthRouter.Login | backend/src/routes/auth.ts:120-146 | a served portal gets a state, a pending session and a timer; a refusal changes nothing |
| AuthRoutes.AuthRouter.CallbackArrives | backend/src/routes/auth.ts:181-222 | the state is consumed before anything else is decided, and the pending login's portal is captured |
| AuthRoutes.AuthRouter.ExchangeReturns | backend/src/routes/auth.ts:260-325 | domain and member are settled with their fallbacks; each refusal ends the callback with its status and stores nothing; otherwise the granted Bitrix24 tokens are stored under the member |
| AuthRoutes.AuthRouter.TokensStored | backend/src/routes/auth.ts:319-351 | one token is signed and left for the poller under the callback's state |
| AuthRoutes.AuthRouter.Poll | backend/src/routes/auth.ts:359-376 | a ready session is handed over and removed, a pending one kept, an unknown state reported |
| AuthRoutes.AuthRouter.Logout | backend/src/routes/auth.ts:382-395 | a token that verifies is revoked until its exp and its member's Bitrix24 tokens are removed; any other is refused without effect |
| AuthRoutes.AuthRouter.Refresh | backend/src/routes/auth.ts:401-424 | a token that verifies is revoked and a new one signed for the same claims; any other is refused without effect |
| AuthRoutes.StepKeepsFlow | backend/src/routes/auth.ts:120-376 | each handler, timer and sweep keeps states single-use, pending sessions true to their login and deliveries unique |
| AuthRoutes.SignInSafety | backend/src/routes/auth.ts:120-376 | in every run a delivered session was delivered once for its state, after exactly one callback used that state within 300 s of its login, and carries the well-formed, allowlisted portal that login chose |
| AuthRoutes.SessionsAreConserved | backend/src/services/tokenService.ts:138-194 | in every run, tokens that verify plus successful logouts never exceed the callbacks that signed one |
| AuthRoutes.RefreshIsOneForOne | backend/src/routes/auth.ts:401-424 | in every reachable state a refresh retires exactly the token presented as it adds one, and a token refreshed before is refused with no change |
| AuthRoutes.NeverAcceptedAgain | backend/src/services/tokenService.ts:166-194 | a token refreshed away or logged out never verifies again in any continuation, whatever is swept |
| AuthRoutes.CleanupsAreUnobservable | backend/src/services/tokenService.ts:42-72 | inserting cleanups anywhere in any run changes no answer of any route |
| AuthRoutes.CleanupsAreUnobservableFromStart | backend/src/services/tokenService.ts:78-90 | in particular for every run of a fresh process |
| SessionIdentity.DeliveredSessionWorks | backend/src/routes/auth.ts:319-336 | in every run a session handed to a poller holds the token signed for the callback of its own state, says what that token claims, names the member and portal that callback and its grant identify, and its token verifies with those claims exactly until it expires or is revoked |
| SessionIdentity.TokensKeepTheirOrigin | backend/src/routes/auth.ts:401-424 | in every run a token that verifies carries member, portal and endpoint of the callback its chain of refreshes started from, and expires a lifetime after it was signed |
| SessionIdentity.RefreshKeepsIdentity | backend/src/routes/auth.ts:401-424 | a refresh is answered exactly for a token that authenticates, and its token then authenticates with the same member, portal and endpoint until its own expiry, the old one never again |
| SessionIdentity.LogoutRetiresOne | backend/src/routes/auth.ts:382-395 | a logout is answered exactly for a token that authenticates, and retires that token and no other |
| SessionIdentity.CompletedLoginWorks | backend/src/routes/auth.ts:120-376 | a login completed within 300 s works whatever else the server holds: the poll waits, then delivers the session, and its token authenticates as that member and portal until it expires |
| SessionIdentity.LoginOpens | backend/src/routes/auth.ts:120-146 | a served portal opens a pending login with a fresh state and a timer ten minutes on |
| SessionIdentity.CallbackInTime | backend/src/routes/auth.ts:181-222 | a callback goes on exactly when its state is at most 300 s old and pending, and uses the state up either way |
| SessionIdentity.ExchangeRefusals | backend/src/routes/auth.ts:260-316 | the causes and statuses of a refused callback, in the source's order |
| SessionIdentity.FailedExchange | backend/src/routes/auth.ts:222-258 | a token endpoint that does not answer ends the callback with 504, one that refuses with 502 |
| SessionIdentity.StoredTokens | backend/src/routes/auth.ts:317-325 | the Bitrix24 tokens stored are the granted ones for the settled portal, with an hour to live when none is stated |
| SessionIdentity.PollHandsOverOnce | backend/src/routes/auth.ts:359-376 | a poll waits for a pending login, delivers a ready session once and knows nothing else |
| TokenManager.Manager.RefreshToken | extension/background/tokenManager.ts:231-248 | a refresh joins the one in progress, or starts one when there is a token |
| TokenManager.Manager.ScheduleRefreshAt | extension/background/tokenManager.ts:201-217 | the timer is set 300 s before expiry, or a refresh is started at once |
| TokenManager.Manager.HandleTransientRefreshFailure | extension/background/tokenManager.ts:255-288 | an expired token is cleared; otherwise the timer is set by the capped doubling backoff, not past expiry |
| TokenManager.Manager.ReplyArrives | extension/background/tokenManager.ts:294-348 | 401 and 403 clear the token, other failures retry, a full success replaces it |
| TokenManager.Manager.EnsureFreshToken | extension/background/tokenManager.ts:120-132 | a token inside its buffer is refreshed before use |
| TokenManager.OneRefreshAtATime | extension/background/tokenManager.ts:231-248 | in every run, also while a login is still being written, at most one refresh is alive, and the flag is set exactly while one is |
| TokenManager.NoStaleTokenIsUsed | extension/background/tokenManager.ts:120-132 | a token with 300 s or less to live is being refreshed before a request is made, any other is left alone |
| TokenManager.ExpiredTokenIsDropped | extension/background/tokenManager.ts:145-155 | asking whether the agent is signed in drops an expired token with its timer and nothing else |
| TokenManager.RefreshStarts | extension/background/tokenManager.ts:231-248 | a call or timer starts a refresh exactly when there is a token and none is under way |
| TokenManager.LoginSchedules | extension/background/tokenManager.ts:93-97 | a login is due for refresh 300 s before its token expires, or at once |
| TokenManager.RefreshRenews | extension/background/tokenManager.ts:294-348 | a refresh that succeeds presents the cached token, replaces it, forgets failures and schedules the next |
| TokenManager.RetryWaits | extension/background/tokenManager.ts:255-288 | failed refreshes wait half a minute, doubling, never more than five minutes |
| TokenManager.DroppedBeforeExpiryOnly | extension/background/tokenManager.ts:255-348 | an unexpired token disappears exactly on 401 or 403, logout or a missing back-end address, and is replaced only by renewal or login |
| TokenManager.TokenSurvives | extension/background/tokenManager.ts:255-348 | in every run the cached token stays the same one while it is unexpired and none of those events happens, however many transport failures, timers and calls there are |
| TokenManager.StepKeepsAttended | extension/background/tokenManager.ts:201-217 | each step keeps a cached token attended by a timer, a refresh or a store, except a renewal written inside its own buffer, which strands it exactly when a token is cached |
| TokenManager.TokenStaysAttended | extension/background/tokenManager.ts:201-348 | so in every run whose renewals are written in time and do not expire before a login being written is due for refresh, a cached token has a timer before expiry or a step under way |
| TokenManager.ShorterRenewalOutwaits | extension/background/tokenManager.ts:93-97 | the second condition is needed: a shorter renewal overtaken by the end of the login waits for a timer after its own expiry |
| TokenManager.ShortLifetimeStrands | extension/background/tokenManager.ts:201-217 | a token granted for 300 s or less is left with no timer and no refresh |
| TokenManager.AttemptEffect | extension/background/tokenManager.ts:255-288 | one failed timer-driven attempt keeps the token and backs off, or gives it up at expiry |
| TokenManager.AtMostFiveAttempts | extension/background/tokenManager.ts:255-288 | from the refresh buffer on, at most five attempts fail in transport before the token is given up, and never before expiry |
| TwoProcess.StepKeepsInv | extension/background/tokenManager.ts:294-348 | each client, server and network step, those of sign-in and logout included, keeps what ties cached token, messages on the way, consumed tokens and revocations together |
| TwoProcess.RunKeepsInv | backend/src/routes/auth.ts:382-424 | so does every run with other users, sweeps, lost messages, and refreshes and logouts handled late |
| TwoProcess.TokenAcceptedUnlessConsumed | backend/src/services/tokenService.ts:166-194 | in every run the client's unexpired token verifies exactly when no processed refresh has presented it and no logout of it was carried out, and in the latter case the client is still waiting for that logout to end |
| TwoProcess.NextAnswerAfterLossIsARefusal | extension/background/tokenManager.ts:294-348 | once consumed, every other attempt that presents the token is denied, and a denial that arrives clears it |
| TwoProcess.DeliveredGrantIsAccepted | extension/background/tokenManager.ts:325-340 | a grant that arrives leaves the client with a token the back end accepts until it expires |
| TwoProcess.AcceptedWhileNothingIsLost | extension/background/tokenManager.ts:294-348 | while requests and denials may be lost but no grant is, the unexpired token of a client with no refresh waiting verifies exactly unless its own logout was carried out and is about to end |
| TwoProcess.AcceptedFromStart | extension/background/auth.ts:171-174 | in every such run from the start, a client with neither a refresh nor a logout under way holds an accepted token until it expires |
| TwoProcess.GrantedExactlyWhenUnspent | backend/src/routes/auth.ts:401-424 | in every run a refresh request that arrives is granted a full lifetime exactly when its token is unexpired, not consumed and not logged out |
| TwoProcess.SendPresentsCached | extension/background/tokenManager.ts:307-316 | a refresh presents the cached token and waits for that request |
| TwoProcess.ReplyDecides | extension/background/tokenManager.ts:318-332 | a grant that arrives becomes the client's token, a denial takes its token away |
| TwoProcess.SignInServes | extension/background/auth.ts:60-82 | the token fetched at sign-in becomes the client's and verifies until it expires |
| TwoProcess.LogoutRevokes | backend/src/routes/auth.ts:382-395 | a logout that arrives is carried out exactly for a token that verifies, which then does not |
| TwoProcess.LogoutClears | extension/background/auth.ts:171-174 | however the request ended, the client then holds no token |
| TwoProcess.LogoutIsFinal | backend/src/services/tokenService.ts:166-194 | a token whose logout was carried out verifies in no continuation |
| LoginPoller.PollForSession | extension/background/auth.ts:108-161 | between 1 and 150 polls, at most two after the window closed; only the last outcome decides; an undecided poll ends only at the deadline or one attempt after a noticed close |
| LoginPoller.SendsAreSpaced | extension/background/auth.ts:118-122 | two polls of one login are at least 2 s apart per round between them |
| LoginPoller.PollerAloneNeverRefused | backend/src/middleware/rateLimiter.ts:145-176 | arrivals within the 5 s timeout of such polls are all admitted by 60 a minute |
| LoginPoller.LoginsAreSpaced | extension/background/auth.ts:118-122 | the polls of any number of logins, one after another, keep that spacing across logins |
| LoginPoller.LoginPollsAreAdmitted | backend/src/routes/auth.ts:19 | all polls of such logins are admitted inside any trace of the shared, swept limiter map with other keys |
| Base64.RoundTrip | extension/options/options.ts:627-642 | decoding undoes encoding for every byte sequence |
| Base64.EncodedLength | backend/src/routes/support.ts:86-90 | the encoded length is four characters per three bytes begun |
| Base64.EncodedMatches | backend/src/routes/support.ts:205-215 | every encoding passes the back end's textual check |
| Base64.LengthIsHonest | backend/src/routes/support.ts:205-221 | every text that passes the check decodes, to exactly the declared number of bytes |
| Base64.DecodableIsBase64 | backend/src/routes/support.ts:205-215 | only texts that pass the check decode |
| Base64.DigitsOfTheStandard | extension/options/options.ts:627-642 | the digits are those of the standard's table |
| Base64.GroupIsBigEndian | extension/options/options.ts:627-642 | the sextets of a group are the bits of its three bytes in order |
| Attachment.FileToBase64 | extension/options/options.ts:627-642 | the 8192-byte chunk loop gives the encoding of the whole file |
| Attachment.ReadAttachment | extension/options/options.ts:710-733 | size, emptiness and type are refused in the source's order, else the file is sent encoded |
| Attachment.ReadByFile | extension/options/options.ts:644-660 | which files are refused and why; an accepted one is sent under its own name and type, an untyped text or log file as plain text |
| Attachment.ParseByUpload | backend/src/routes/support.ts:187-222 | the back end accepts exactly known types with base64 of something non-empty within its limit, and why it refuses |
| Attachment.AcceptedIsWithinLimit | backend/src/routes/support.ts:187-222 | whatever the back end accepts decodes to a non-empty content within its limit |
| Attachment.FitsTheBody | backend/src/routes/support.ts:86-90 | an encoding of up to the limit leaves at least 65,000 bytes of the body cap |
| Attachment.EndsAgree | backend/src/routes/support.ts:187-222 | every file the extension accepts, a back end at or above the default limit accepts, with the same bytes, the right length and room in the body |
| SecretFraming.NoDotInBase64 | backend/src/utils/crypto.ts:34-50 | an encoding never contains the separator |
| SecretFraming.FrameParsesBack | backend/src/utils/crypto.ts:34-79 | the frame splits back into its version and three parts, and these decode to what was encoded |
| SecretFraming.FramesAreUnambiguous | backend/src/utils/crypto.ts:34-50 | equal frames have equal iv, tag and ciphertext |
| SecretFraming.SecretRoundTrip | backend/src/utils/crypto.ts:21-79 | under a valid key decryption undoes encryption; under an invalid one both fail with the same error |
| SecretFraming.OnlyFramesOpen | backend/src/utils/crypto.ts:58-79 | only a four-part frame of the current version with decodable parts is opened, and only if authentic |
| SecretFraming.KeyBytes | backend/src/utils/crypto.ts:21-32 | a key is 64 hexadecimal digits and stands for 32 bytes, high digit first |
| TokenStore.Tokens.StoreBitrixTokens | backend/src/services/tokenStore.ts:76-102 | the cache is written first; the row only with a database, a sealed pair and a successful call |
| TokenStore.Tokens.GetBitrixTokens | backend/src/services/tokenStore.ts:108-144 | a cache hit answers at once; a miss reads, opens and caches the row, and any failure is a miss |
| TokenStore.Tokens.RemoveBitrixTokens | backend/src/services/tokenStore.ts:150-174 | the cache entry goes whatever the database says, and the answer tells whether either had it |
| TokenStore.RowRoundTrip | backend/src/services/tokenStore.ts:76-136 | tokens can be sealed exactly under a valid key, and an opened row is what was sealed |
| TokenStore.RowColumns | backend/src/services/tokenStore.ts:76-102 | each secret is in its own column, in a frame with an iv of its own, the rest as it is |
| TokenStore.WithoutTheDatabase | backend/src/services/tokenStore.ts:108-174 | when the database fails or a row does not open, the answers are what the cache knows |
| TokenStore.StoreIsAPlainMap | backend/src/services/tokenStore.ts:76-174 | for every sequential run of store, get, remove and restart with successful database calls, the answers are those of one plain map |
| TokenStore.FreshStoreIsAPlainMap | backend/src/services/tokenStore.ts:76-174 | in particular from an empty cache and table |
| TokenStore.FailedWriteIsServedUntilRestart | backend/src/services/tokenStore.ts:76-102 | stored tokens are served whatever the database said; after a restart a read returns them exactly when the write succeeded, else what was stored before |
| TokenStore.FailedDeleteBringsTokensBack | backend/src/services/tokenStore.ts:150-174 | after a removal a read finds tokens exactly when a table stands behind the cache, the delete failed and there were some, and then it finds those |

## Left out

- Express wiring, CORS, HTML pages, logging, metrics, start-up and shutdown: no hard state.
- HTTP, MySQL and browser calls: present only as outcomes chosen by the environment, or as an abstract table.
- AES-GCM, SHA-256, token signing and randomness: a pair of functions where opening undoes sealing, a given hash, the set of tokens signed, and values that are new.
- Clocks that go back and timers that fire early: excluded; within one synchronous stretch the clock is read once.
- Several back-end instances: every map modelled is per process in the source.
- At-most-once posting to Bitrix24: not a property, since the retry loop repeats a call after a transport failure.
- RateLimiter.BurstBound: needs a window of positive length; RateLimiter.ZeroWindowRefusesNothing shows why.
- DuplicateGuard: the identity of an entry object is a number; the PUT and DELETE comment routes and the size check are left out as easy.
- RefreshRotation: a member whose tokens are not in the cache finds none, and no login or logout of a member takes effect, at the server or in the cache, during an exchange of that member.
- RefreshRotation.EveryExchangePresentsTheNewest: starts from caches, possibly empty, whose pairs are the server's newest, as logins leave them.
- TokenManager: begins after the first load of the cache and excludes a login or a logout that takes effect while a refresh is in flight, and a second login while one is being written; worker restart and resumeSession are left out.
- TwoProcess: a logout's request may overlap refreshes, its clearing of the token may not, as in TokenManager; a restart of the back end, which forgets revocations, is not a step.
- TokenManager.AtMostFiveAttempts: counts timer-driven attempts with no other callers.
- TokenManager.TokenStaysAttended: needs renewals written before their own refresh buffer begins and no shorter than a login being written allows; TokenManager.StepKeepsAttended and TokenManager.ShorterRenewalOutwaits show what happens otherwise.
- TokenStore.StoreIsAPlainMap: operations run one at a time, because a cache miss that overlaps a store can put the old row back.
- AuthRoutes: the sign-in window, the audit of failures and an exception thrown while a response is written, and a restart, which forgets sessions and revocations.
- TokenService: a token is named by its jti, so a token that was never signed is any other text.
- LoginPoller: opening and watching the sign-in window is a time at which it closed, or none.
- Text: trimming and lower-casing are those of ASCII text.
- Base64: decoding is strict, where the runtime's decoder skips malformed characters; left-over bits are ignored as there.
- Attachment: cleaning of file names, phone numbers and context, the support mail, and the rounding of a product of 1.4 in floating point, taken exactly.
- Options and popup rendering, tabs, navigation, lead detection, the portal registry, the PHP proxy, scripts, migrations and container files: easy claims or browser plumbing.
