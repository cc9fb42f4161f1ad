# Verified model of the AI stock-analysis backend

A Dafny model of the stateful core of the backend, with proofs of what it promises over whole runs:

- **Token budget** (`SlidingWindow`, `Budget`, `SpendBound`): four pruned sliding windows per model, reserve and release, and the spend bound they enforce.
- **LLM cascade** (`RoundRobin`, `Cascade`, `CascadeLaws`, `CascadeSteps`, `CascadeThreads`, `Fallback`, `ToolIds`, `SharedMessages`): pinned model, round-robin pools, retries with tighter compression, Ollama and Anthropic; the same cascade step by step, so that any number of invokes can be interleaved; and what rewriting ids in place does to the caller's own messages.
- **Message compressor** (`Messages`, `Compressor`, `TruncationLaws`, `Compression`): finding the current request, dropping turns, capping tool results.
- **Tokens and sessions** (`TokenStore`, `Tokens`, `Sessions`): the lazily pruned TTL map, the deny list, and session revocation.
- **Counters and buffers** (`ByoCounter`, `FlushBuffer`, `UsageTracker`): increment-then-roll-back, the flush buffer, and the lazy monthly reset.
- **Portfolio series** (`Series`, `Portfolio`, `Performance`, `Forecast`).
- **Changelog reordering** (`Changelog`, `ChangelogRerun`).

Code that changes state is a class or a method with loops, proved against a function of the old state; the laws are lemmas about those functions. Concurrency is a state machine over atomic steps, and its theorems quantify over every run. Time is a real number read through parameters; provider replies, archive and storage writes, and the clock are arbitrary inputs. The ratios 0.80, 0.70 and 1.20 are exact (4/5, 7/10, 6/5), money is real before rounding and integer cents after it, and months and dates are integers in calendar order.

Where code and documentation disagree the model follows the code:

- `backend/message_compressor.py:349-351` documents caps of 1000 and 500 for the later passes; the code uses 2500 and 1500. The boundary rule documented at 196-198 is not the one at 273-295.
- `backend/llm_byo.py:100-102` says the stored counter is always bounded by the limit. `ByoCounter.StoredValueOvershoots` gives a run where it is not; `ByoCounter.StoredValueBoundedIff` says exactly when it is.
- `backend/token_budget.py:234-238` speaks of empty day deques but tests whether the totals are positive. A total can dip below zero, and then seeding leaves it wrong (`Budget.SeedAfterDipBreaksTotals`).
- `auth/tokens.py:194-195` says a deny entry lasts the token's remaining lifetime. It lasts the full refresh lifetime, which is what makes revocation permanent.
- `backend/dashboard_routes.py:2447-2457` says the fill removes dips for tickers that lack a row. It does so only after a ticker's last row; `Performance.ValueDipsIffGap` says exactly when a dip remains.
- `hooks/pre_commit_checks.py:623-624` says Known Issues always moves to the end. It moves only when dated sections are out of order (`Changelog.FooterStaysWhenOrdered`).
- `auth/service.py:368-369` says all sessions of a user are revoked. A refreshed token (`auth/endpoints/auth_routes.py:326-328`) is never registered, so it is not reached (`Sessions.RefreshedTokenSurvives`); `Sessions.CheckAfterRevokeAll` says exactly which tokens are.
- `backend/observability.py:547` says the shutdown flush avoids data loss. `FlushBuffer.EverythingStoredIff` says exactly when it does.
- `backend/llm_fallback.py:59-61` means every id to match Anthropic's pattern. A valid id followed by one newline passes the check unchanged (`ToolIds.SanitizedIsValidIff`).

## Model

| member | source | states |
|---|---|---|
| SlidingWindow.WindowTotal | backend/token_budget.py:711-737 | the pruning loop pops exactly the expired front of the log and lowers the running total by what it popped |
| SlidingWindow.PrunedIsLiveIff | backend/token_budget.py:732-737 | popping from the front finds exactly the live entries if and only if no expired entry sits behind a live one |
| SlidingWindow.SettledTotalIsWindowSum | backend/token_budget.py:711-737 | with ordered timestamps the pruned log and O(1) total equal the live part of the full append history and its sum |
| SlidingWindow.QuietWindowIsZero | backend/token_budget.py:711-737 | once every entry has expired a query leaves an empty log and total 0, in whatever order entries arrived |
| SlidingWindow.FastWindowRefinesSlow | backend/token_budget.py:332-390 | after any clock-ordered run of appends and prunes, the total is the sum of the log, a query returns the sum over the whole history inside the window, and a quiet window gives 0 |
| Budget.StepsKeepTotals | backend/token_budget.py:332-538 | every lock-protected step of reserve, release, record and the queries keeps all four totals equal to the sums of their logs |
| Budget.ModelState.PruneAll | backend/token_budget.py:418-450 | all four windows are settled at their own widths |
| Budget.ModelState.CheckAndCharge | backend/token_budget.py:416-478 | prune, test all four limits, and charge all four logs exactly when every limit has room |
| Budget.ModelState.SeedDay | backend/token_budget.py:230-249 | the daily totals are assigned, not added to, unless the seed is empty or a total is positive |
| Budget.TokenBudget.constructor | backend/token_budget.py:171-183 | every model with limits gets its own empty state |
| Budget.TokenBudget.CanAfford | backend/token_budget.py:332-390 | the answer is the one reserve would give, at the cost of pruning only |
| Budget.TokenBudget.Reserve | backend/token_budget.py:393-478 | a model without limits is always granted and unchanged; otherwise its four logs change together and no other model changes |
| Budget.TokenBudget.Release | backend/token_budget.py:480-519 | compensating entries are appended to all four logs of that model alone; a model without limits is left alone |
| Budget.TokenBudget.Record | backend/token_budget.py:521-538 | one request is appended, creating state for a model that has none |
| Budget.SeedKeepsTotalsIff | backend/token_budget.py:230-249 | seeding keeps totals exact if and only if it is skipped or both day totals were 0; it is skipped where one is positive |
| Budget.SeedCountsForADay | backend/token_budget.py:230-249 | seeded at startup, the remembered tokens and requests count against the day limits of what is asked in the next 24 hours, against no minute limit, and not after that day |
| Budget.ChargeExpiresBeforeRelease | backend/token_budget.py:502-519 | between the expiry of a charge and of its release only the negative entry is left |
| Budget.SeedAfterDipBreaksTotals | backend/token_budget.py:237-249 | a concrete reserve, release and wait after which any seed breaks the totals |
| SpendBound.RunKeepsInv | backend/token_budget.py:332-690 | in every run of reserve, release, record and queries, whenever release, record and the status queries read the clock, the windows stand for the full append history, and that history's sum in each window is unreleased spend minus releases whose reservation has left it |
| SpendBound.GrantKeepsSpendBound | backend/token_budget.py:412-538 | in every such run, at each granted reservation and for all four limits, the unreleased in-window spend, recorded requests included, is at most 80 % of the limit plus the releases still counted whose reservation has left the window: those inside it, and those stuck in the log because they were dated before the lock was taken |
| SpendBound.PromptRecordsStickReleases | backend/token_budget.py:480-538 | if no record is dated late, only releases can be stuck |
| SpendBound.PromptGrantKeepsSpendBound | backend/token_budget.py:412-538 | where every release and record is dated no earlier than what the ledgers were told before it, nothing is stuck and only the releases inside the window count |
| SpendBound.GrantedIffSeenSpendFits | backend/token_budget.py:416-478 | in every reachable state a reservation is granted if and only if, in all four windows, the unreleased spend less those releases, plus the estimate or one request, is at most 80 % of the limit |
| SpendBound.OrphanReleaseAdmitsOverspend | backend/token_budget.py:412-519 | the release term is needed: a run that ends with twice the threshold unreleased in one minute |
| SpendBound.LateReleaseAdmitsOverspend | backend/token_budget.py:500-519 | so is what is stuck: a run whose one release is entered late and that ends with 12 unreleased in a minute whose threshold is 8 |
| SpendBound.NoReleaseStaysWithinThreshold | backend/token_budget.py:412-478 | in a run without releases or records every window, placed anywhere in time, stays within 80 %, for all four limits |
| Messages.EstimateTokens | backend/token_budget.py:299-326 | a quarter of the text and tool-argument characters, rounded down, plus 20 % rounded down |
| Messages.EstimateIsThreeTenths | backend/token_budget.py:299-326 | the estimate is three tenths of the counted characters, short of it by less than two |
| Messages.MessageCounts | backend/token_budget.py:299-326 | a message adds its own characters wherever it stands |
| Messages.CharsAre | backend/token_budget.py:303-321 | a message counts its text, nothing for other content, and an AI message the printed arguments of each call besides |
| RoundRobin.RoundRobinPool.OrderedModels | backend/token_budget.py:119-132 | the order is the rotation at the counter, which then moves by one; an empty pool returns nothing and stays |
| RoundRobin.RotationIsPermutation | backend/token_budget.py:129-132 | every order holds the same models as often as configured, led by the counter's position |
| RoundRobin.RotationAt | backend/token_budget.py:129-132 | position i of an order holds the model i places after the counter, wrapping around |
| RoundRobin.LeadsExactly | backend/token_budget.py:119-132 | over k calls a position leads once per full round, plus once if the unfinished round reached it |
| RoundRobin.LeadsAreFair | backend/token_budget.py:119-132 | hence floor(k/n) or ceil(k/n) times |
| CascadeLaws.FirstInOrderAnswers | backend/llm_fallback.py:584-957 | unless a first Ollama is up, has room and answers, the models are attempted in pin-then-pool order and no further than the first that answers or fails fatally: its answer is the outcome, its fatal error fails the invoke; if all have lost, a last Ollama that is up, has room and answers is the outcome, else Anthropic if configured and answering, else failure |
| CascadeLaws.OllamaFirstAnswers | backend/llm_fallback.py:584-684 | an Ollama configured first that is up, has room for the compressed request and answers is the outcome, with no model tried, no ledger, counter or pin changed |
| CascadeLaws.OllamaAnswersOnlyInPlace | backend/llm_fallback.py:584-881 | if Ollama answered it is configured and the compressed request fits it, and either it comes first and nothing was tried or changed, or it comes last and every model in order was tried and lost |
| CascadeLaws.AttemptAnswers | backend/llm_fallback.py:342-525 | what one attempt makes of the two reservations and the reply: the first granted request is sent, an answer wins, a retriable error or two refusals lose, a fatal error ends the invoke |
| CascadeLaws.RetryTarget | backend/llm_fallback.py:366-378 | the retry is compressed towards 70 % of the tokens per minute, rounded down |
| CascadeLaws.AnswerIsPinned | backend/llm_fallback.py:690-771 | a Groq answer leaves its model pinned; otherwise no pin is left, unless a first Ollama answered or the pinned model failed fatally, when it stays |
| CascadeLaws.CounterMovesIfReached | backend/llm_fallback.py:686-771 | an invoke moves a pool's counter, by one, if and only if no first Ollama answers and everything with a client that comes before that pool was tried and lost |
| CascadeLaws.PinnedSessionKeepsCounters | backend/llm_fallback.py:690-719 | between pin resets, while the pinned model keeps answering, no pool counter moves and the pin stays |
| CascadeSteps.AloneIsInvoked | backend/llm_fallback.py:527-957 | the cascade cut into steps of at most one budget call, pool order or provider call, and run with nobody in between, ends in exactly the state, trace and outcome of the invoke |
| CascadeSteps.StepDescends | backend/llm_fallback.py:686-957 | whatever others have done to the budget and the pools meanwhile, each step brings an invoke closer to its end |
| CascadeSteps.InvokeConserves | backend/llm_fallback.py:366-957 | for any ledgers, clock and replies, each of a model's four logs after an invoke is a tail of the old log and the invoke's own entries, its total moves with it, and those entries sum to one reservation of the estimate of what was sent on the Groq model that answered, and to zero on every other model and in every other outcome |
| CascadeThreads.TotalsAreWhatInvokesHold | backend/token_budget.py:332-519 | in every state any interleaving of invokes, pin changes and queries can reach, each model's four running totals, brought up to any later time, are what the invokes hold on it in the window less the releases still counted whose reservation has left, inside the window or stuck in the log |
| CascadeThreads.InvokesConserveWhenInterleaved | backend/llm_fallback.py:366-957 | in every such state a finished invoke has netted one reservation of what it sent on the limited Groq model that answered it and nothing elsewhere, and a running one holds at most the reservation of its present attempt |
| CascadeThreads.GrantsStayWithinBound | backend/token_budget.py:412-519 | whichever invoke asks, it is granted if and only if the request fits beside what the budget sees of all of them, and a grant leaves what they hold in each of the four windows within 80 % of the limit plus the releases still counted whose reservation has left |
| Fallback.FallbackLLM.TryModel | backend/llm_fallback.py:342-525 | reserve, else recompress towards 70 % of the tokens per minute and reserve again, call, and release on any error, proved against the attempt function |
| Fallback.FallbackLLM.TryModels | backend/llm_fallback.py:729-771 | the inner loop skips models without a client and stops at the first win or fatal error |
| Fallback.FallbackLLM.TryEachPool | backend/llm_fallback.py:725-751 | each pool is asked for its order only when the cascade reaches it |
| Fallback.FallbackLLM.TryPin | backend/llm_fallback.py:686-719 | the pinned model is tried first and unpinned if it loses or has no client, but not if it raises |
| Fallback.FallbackLLM.Invoke | backend/llm_fallback.py:527-957 | outcome, ledgers, pool counters and pin are those of the cascade function on every path, which the laws above decide from configuration, ledgers and replies |
| Fallback.FallbackLLM.PinReset | backend/llm_fallback.py:332-340 | only the pin changes |
| ToolIds.SanitizeToolIds | backend/llm_fallback.py:64-86 | in place, every listed message object has its call ids and result id rewritten by one rule, once however often it is listed, and no other object changes |
| ToolIds.SanitizedIsValidIff | backend/llm_fallback.py:59-86 | a rewritten id meets Anthropic's pattern if and only if it was not empty and not a valid id followed by one newline |
| ToolIds.SanitizedAt | backend/llm_fallback.py:59-86 | letters, digits, underscores and hyphens stay, every other character becomes an underscore, and the length stays, unless the id is a valid one followed by a newline |
| ToolIds.NewlineSlipsThrough | backend/llm_fallback.py:59-86 | such an id |
| ToolIds.SanitizeIsIdempotent | backend/llm_fallback.py:64-86 | rewriting twice is rewriting once |
| ToolIds.IdsCollideIff | backend/llm_fallback.py:64-86 | two different ids become one if and only if they differ only in masked characters and neither slipped through with a newline |
| ToolIds.PunctuationCollides | backend/llm_fallback.py:64-86 | a concrete pair of ids that become one |
| ToolIds.CleanKeepsPairing | backend/llm_fallback.py:64-86 | every tool result keeps its calling message |
| ToolIds.NoNewCaller | backend/llm_fallback.py:64-86 | without a collision no tool result gains a caller |
| ToolIds.AnthropicPayloadPaired | backend/llm_fallback.py:918-927 | the compressed and rewritten list sent to Anthropic still pairs every tool result with its call |
| SharedMessages.SendToAnthropic | backend/llm_fallback.py:918-927 | what is sent holds the compressed, rewritten messages, and of the caller's own message objects exactly those sent as they are were rewritten |
| SharedMessages.CallerKeepsPairingIff | backend/message_compressor.py:301-336 | for any paired list, the caller's own list is still paired if and only if each tool result whose id is rewritten finds a call of its request that ends with the same id, by whether result and call were sent as the caller's objects or not |
| SharedMessages.RequestKeepsPairingIff | backend/message_compressor.py:301-336 | when no tool message precedes the request: if and only if no result cut to the cap, and so sent as a copy, has an id that is rewritten |
| SharedMessages.LongResultLosesCaller | backend/message_compressor.py:321-332 | a list of three messages whose capped result loses its call that way |
| Compressor.FindLoopBoundary | backend/message_compressor.py:257-295 | the single-pass index finds the boundary that `BoundaryIs` characterises |
| Compressor.BoundaryIs | backend/message_compressor.py:273-295 | 0 without a human message after the first position; else the last human message, unless no tool message follows it and one follows the human message before it, which is then the boundary |
| Compressor.ToolIsInRequest | backend/message_compressor.py:283-295 | a tool message followed by exactly one human message and no further tool message is still in the current request |
| Compressor.BoundaryStable | backend/message_compressor.py:257-295 | dropping history between the system prefix and the boundary leaves the boundary on the same message |
| Compressor.TurnsFromStart | backend/message_compressor.py:231-242 | cutting at a turn start regroups into exactly the remaining turns |
| Compressor.FlattenTurns | backend/message_compressor.py:231-245 | grouping into turns loses and reorders nothing |
| Compressor.GroupTurns | backend/message_compressor.py:231-240 | the loop builds the turns, each closed by an AI message, the last possibly open |
| Compressor.TruncateHistory | backend/message_compressor.py:185-255 | system prefix, last turns and current request, by the four loops of the source |
| TruncationLaws.TruncatedIsWithout | backend/message_compressor.py:185-255 | truncation removes one block between prefix and boundary, cut at a turn start, and moves the boundary by its length |
| TruncationLaws.TruncatedKeepsLastTurns | backend/message_compressor.py:185-255 | truncating to n turns keeps the system prefix, the request, and of the history exactly its last n turns, or all if there are fewer |
| TruncationLaws.TruncateComposes | backend/message_compressor.py:369-384 | truncating to a and then to b turns is truncating once to the smaller |
| TruncationLaws.TruncateComposesIff | backend/message_compressor.py:185-255 | that holds for all a and b if and only if no system message begins a turn of the history |
| TruncationLaws.TruncateDoesNotCompose | backend/message_compressor.py:185-255 | where one does, a number of turns for which two passes keep it and one does not |
| TruncationLaws.TruncateKeepsPairingIff | backend/message_compressor.py:185-255 | for a paired list, every number of turns keeps each tool message with its caller if and only if none precedes the boundary |
| Compression.TruncateToolResults | backend/message_compressor.py:301-336 | only tool text over the cap changes, to its head and the marker, with its call id kept |
| Compression.CapBounds | backend/message_compressor.py:316-332 | a capped result keeps its head, has length cap + 23 + digits(cut), and is never more than 23 longer than before |
| Compression.CutSaysHowMuch | backend/message_compressor.py:321-328 | a cut result is its head and a marker that names the number of characters cut |
| Compression.CompressGrowthIff | backend/message_compressor.py:76-132 | no call, whatever its messages, iteration and target, lengthens a tool result of the request by more than 23 characters if and only if the configured cap avoids 1476-1500 and 2476-2500 |
| Compression.TruncateNeverRaisesEstimate | backend/message_compressor.py:185-255 | dropping history never raises the token estimate |
| Compression.Compress | backend/message_compressor.py:76-132 | early exit, condensing, truncation, caps and progressive passes, in that order |
| Compression.ProgressiveCompress | backend/message_compressor.py:342-390 | the second and third passes are taken only while the estimate is over the target |
| Compression.CompressMeetsTargetOrDropsHistory | backend/message_compressor.py:342-390 | the result meets the target, or all three passes were taken and only the system prefix and the request are left, every tool text cut to 1500; an estimate under half the target leaves everything as it is |
| Compression.CompressKeepsLastTurns | backend/message_compressor.py:76-132 | one pass leaves the configured number of turns, a second one of those, a third none |
| Compression.PromptCondensedFromSecondIteration | backend/message_compressor.py:107-132 | a leading system prompt is condensed from the second iteration on and never on the first, on every path |
| Compression.CompressKeepsRequest | backend/message_compressor.py:76-132 | on every path every message of the current request survives in order, changed by nothing but caps of that path, apart from a leading system message |
| Compression.CappedByKeepsIdentity | backend/message_compressor.py:301-336 | any caps keep kind and call id and touch only tool text |
| Compression.CompressKeepsPairing | backend/message_compressor.py:76-132 | if no tool message precedes the boundary, no tool message any path keeps loses its caller |
| TokenStore.InMemoryTokenStore.Prune | auth/token_store.py:174-180 | exactly the entries past their time go, with their values |
| TokenStore.InMemoryTokenStore.Add | auth/token_store.py:105-113 | the entry is dated by one clock reading and the store pruned by a later one |
| TokenStore.InMemoryTokenStore.AddJson | auth/token_store.py:143-153 | likewise with a value |
| TokenStore.InMemoryTokenStore.Contains | auth/token_store.py:115-128 | true exactly for a live key; an expired key is forgotten |
| TokenStore.InMemoryTokenStore.GetJson | auth/token_store.py:155-163 | the value of a live key, else nothing |
| TokenStore.InMemoryTokenStore.KeysByPrefix | auth/token_store.py:165-172 | every live key with the prefix, each once |
| TokenStore.LaterLookups | auth/token_store.py:105-180 | to later lookups each operation changes only its own key: an add is found until its time is up, with its value, a removal is not found, and pruning changes nothing; an add or a listing leaves nothing behind that has expired |
| TokenStore.DenyEntrySurvives | auth/token_store.py:105-180 | through any later store traffic that keeps the key spaces apart, a deny entry lasts until its time is up |
| Tokens.DecodeToken | auth/tokens.py:131-183 | accepted if and only if the token is signed, unexpired at the first reading, not live in the deny list at the second, and of the expected kind if one is given |
| Tokens.DecodeIff | auth/tokens.py:131-183 | the same with each refusal: invalid or expired, else revoked, else of the wrong type, each exactly when that is the first test to fail; accepted claims are the token's own |
| Tokens.RevocationPermanentIff | auth/tokens.py:153-212 | a token valid when revoked is rejected by every later decode if and only if its deny entry lasts as long as any decode could verify it |
| Tokens.IssuedTokenStaysRevokedIff | auth/tokens.py:115-212 | for tokens this service issues: if and only if revoked at least leeway plus lag after issue, hence always when there is neither |
| Tokens.AddRevokes | auth/tokens.py:208-212 | adding the jti with the refresh lifetime is such a revocation |
| Sessions.PrefixMatchesOwner | auth/service.py:260-270 | with colon-free user ids a user's prefix matches exactly that user's keys |
| Sessions.KeyInjective | auth/service.py:260-270 | a session key names its user and token |
| Sessions.AuthService.Login | auth/endpoints/auth_routes.py:186-194 | the issued token lives the refresh lifetime and is registered for at least as long, with the address and agent it was asked from |
| Sessions.AuthService.RegisterSession | auth/service.py:272-318 | a verifiable token with a jti is registered for a refresh lifetime from now, its entry holding its user, id, address and agent; every registered token still has a live session or a deny entry until its time is up |
| Sessions.AuthService.ListSessions | auth/service.py:320-339 | nothing listed that was not a live session of the user, and none missed that is still live at the end |
| Sessions.AuthService.RevokeRefreshToken | auth/tokens.py:186-220 | a verifiable token is denied for at least a refresh lifetime, no other entry appears, and the session invariant and all earlier denials hold |
| Sessions.AuthService.RevokeSession | auth/service.py:341-366 | true means denied and dropped, false means there was no live session; either way a token registered under that id is denied, and every other key is as it was |
| Sessions.AuthService.RevokeAllSessions | auth/service.py:368-398 | no session key of the user is left, every session live to the end is denied for a refresh lifetime from the call, every token registered for the user as long as its session was made to last, and rejected at any leeway and lag within that; no other token is denied, other users' sessions are untouched, and the count is that of the live keys |
| Sessions.AuthService.CheckToken | auth/service.py:203-226 | the decode against the store as it stood, which loses no denial; an accepted token is signed, of the expected kind, unexpired and not denied |
| Sessions.AuthService.Rotate | auth/endpoints/auth_routes.py:306-328 | only an active user's refresh token gets a new one; an undenied one that still verifies at the end does; a refresh denies the old token, and the new one has no session entry |
| Sessions.Serve | auth/service.py:203-398 | over any sequence of logins, checks, refreshes, logouts, listings and revocations the session invariant holds and every denied token stays denied until the time it was denied through |
| Sessions.Revoke | auth/service.py:228-398 | each path denies the token: through the time its session was made to last, or a refresh lifetime from the call if the token was presented or its session was live to the end; only a presented token that has expired needs no denial |
| Sessions.DeniedStaysRejected | auth/service.py:203-398 | after any sequence of requests, at any pace, a denied token is rejected by every decode from then on whose expiry test, leeway and lookup fit within the denial |
| Sessions.RevokedStaysRejected | auth/service.py:228-398 | revoked by any of the three paths, then after any sequence of requests and a check, the token is rejected by that check unless it ends after the denial, and by every decode from then on whose expiry test, leeway and lookup fit within it; if the session has not run out, the denial is a refresh lifetime from the revocation |
| Sessions.CheckAfterRevokeAll | auth/service.py:368-398 | after all of a user's sessions are revoked, a token registered for the user is rejected, by the check and by every decode from then on, as far as the session was made to last; one that never was and had not been denied is judged as if nothing had been revoked |
| Sessions.RefreshedTokenSurvives | auth/endpoints/auth_routes.py:318-328 | an undenied refresh token that still verifies is refreshed, and the new one is accepted after all of its user's sessions have been revoked |
| Sessions.DenialsKeptFurther | auth/token_store.py:105-180 | lasting denials compose over successive operations |
| Sessions.DeniedIsRejected | auth/tokens.py:153-171 | a token denied through the last moment any decode could verify it is rejected by that decode |
| ByoCounter.CheckAndIncrement | backend/llm_byo.py:90-149 | alone, a request is admitted exactly when the counter is below the limit, and a refusal leaves it as it was |
| ByoCounter.ResolveForChat | backend/llm_byo.py:152-220 | who uses the platform, who their own keys, who is blocked, and that only the second is counted |
| ByoCounter.CacheService.Incr | backend/cache.py:102-140 | one atomic increment returning the new value |
| ByoCounter.CacheService.Decr | backend/cache.py:142-160 | one atomic decrement |
| ByoCounter.CounterIsExact | backend/llm_byo.py:59-149 | under every interleaving, with months rolling over between reading the key, the increment and the rollback, for every key: value = admitted + losers not rolled back, admitted never exceeds the limit, and nobody has lost unless it was reached |
| ByoCounter.StoredValueBoundedIff | backend/llm_byo.py:100-102 | the stored value is within the limit if and only if no rollback is pending on the key |
| ByoCounter.StoredValueOvershoots | backend/llm_byo.py:100-102 | a run in which it is above the limit |
| FlushBuffer.ObservabilityCollector.FlushEvents | backend/observability.py:521-542 | undisturbed, stored followed by pending never changes, and a successful flush stores the first 50 pending or all if there are fewer |
| FlushBuffer.ObservabilityCollector.FlushSync | backend/observability.py:544-566 | everything pending is stored, or lost if the write fails |
| FlushBuffer.ObservabilityCollector.EnqueueEvent | backend/observability.py:496-510 | the event goes last |
| FlushBuffer.TimerKeepsOrder | backend/observability.py:496-542 | under every interleaving with the timer, persisted, in flight and pending spell exactly the enqueue order |
| FlushBuffer.NothingLostUnlessFinalWriteFails | backend/observability.py:496-566 | with shutdown flushes racing the timer every event is stored, in flight, pending, in a shutdown batch or lost, exactly once, and lost only by a shutdown write that failed |
| FlushBuffer.EverythingStoredIff | backend/observability.py:521-566 | once the shutdown writes are done, every event is stored if and only if no non-empty shutdown write failed and the timer held nothing when the last shutdown flush took the rest, or wrote that batch afterwards |
| FlushBuffer.BatchLeftBehind | backend/observability.py:521-566 | a run that leaves the timer's batch behind |
| UsageTracker.Tracker.LazyReset | backend/usage_tracker.py:133-182 | a new month archives the old count and starts at zero |
| UsageTracker.Tracker.IncrementUsage | backend/usage_tracker.py:185-227 | reset, then one more use in the month read the second time |
| UsageTracker.Tracker.IsQuotaExceeded | backend/usage_tracker.py:36-74 | blocked exactly when the tier has a quota and the count has reached it |
| UsageTracker.Tracker.ResetUserUsage | backend/usage_tracker.py:261-302 | the listed users are reset, and counted, each once, if they had uses |
| UsageTracker.ResetsWhoIsListed | backend/usage_tracker.py:261-302 | a listed user with uses starts the month at zero, and no other row changes |
| UsageTracker.ResetsArchiveTiers | backend/usage_tracker.py:261-302 | the history only grows, by entries under each user's own tier |
| UsageTracker.MaybeResetConservesIff | backend/usage_tracker.py:133-182 | leaving a month keeps every record if and only if the archive write succeeded or there was nothing to archive; what is archived carries the user's tier |
| UsageTracker.IncrementCountsOnceIff | backend/usage_tracker.py:185-227 | an increment adds exactly one use if and only if the month did not roll over between its two readings, the row was of another month than the first, or it had counted nothing |
| UsageTracker.RolloverMovesUse | backend/usage_tracker.py:205-216 | an increment that rolls over and takes an earlier use of the old month with it |
| UsageTracker.ResetUsersConserve | backend/usage_tracker.py:261-338 | resetting any list of users keeps every record |
| UsageTracker.RunConservesUsage | backend/usage_tracker.py:36-338 | over every run of increments with two readings each, checks and resets, in any order of months, archived plus live equals the uses made, for each user and month, as long as no increment of a row that has counted rolls over between its readings |
| UsageTracker.RunConservesUsageIff | backend/usage_tracker.py:36-338 | with months in order, if and only if: a single such rollover is never made good |
| UsageTracker.QuotaCountsThisMonth | backend/usage_tracker.py:36-74 | with months in order, no such rollover and no manual reset, blocked exactly when this month's uses have reached the quota: 30 for pro, 3 for free and unknown tiers, none for premium |
| Series.FillForward | backend/dashboard_routes.py:2391-2419 | the filled map holds the last close on or before every row date that has one, and nothing else |
| Series.AsOfIsLatest | backend/dashboard_routes.py:2391-2419 | the as-of value is that of the last row on or before the date that has one |
| Series.TiesGoToEven | backend/dashboard_routes.py:2495-2500 | half a cent rounds to the even one |
| Portfolio.CarryForward | backend/dashboard_routes.py:2458-2471 | existing entries are unchanged, nothing is added on or before a ticker's last row, and every series date is priced as the lookup says |
| Portfolio.PricedAtLastCloseAtEnd | backend/dashboard_routes.py:2389-2471 | on the last series date a ticker that ever closed is priced at its last real close |
| Portfolio.UnpricedIffInteriorGap | backend/dashboard_routes.py:2447-2471 | the series has the as-of price or none, and misses a known one exactly in a ticker's interior gaps |
| Portfolio.BuildLots | backend/dashboard_routes.py:2421-2435 | a purchase without a price takes the close of its trade date, or nothing |
| Portfolio.OneLot | backend/dashboard_routes.py:2421-2435 | a purchase of a ticker with rows becomes one lot with its ticker, quantity and date, at the recorded price, else the close of that very date, else zero |
| Portfolio.LotsConcat | backend/dashboard_routes.py:2421-2435 | each purchase becomes its own lot, in order |
| Portfolio.LotAddsItsShare | backend/dashboard_routes.py:2473-2490 | a lot, wherever it is listed, adds its quantity times the day's price to the value and times the price paid to the cost, or nothing to either when not bought yet or unpriced |
| Portfolio.DailyValues | backend/dashboard_routes.py:2473-2501 | exactly the series dates with a positive value are shown, each with its value and cost in cents |
| Portfolio.DaysAre | backend/dashboard_routes.py:2473-2501 | the same of the day sequence the loop is proved against |
| Performance.DailyPoints | backend/dashboard_routes.py:2526-2565 | each day's change in value without the capital added that day, and the same as a share of the previous value |
| Performance.ReturnIsShare | backend/dashboard_routes.py:2542-2554 | a day's return times the previous value is its profit, up to the rounding to four decimals of a percent, and 0 where the previous value is 0 |
| Performance.ReturnFollowsPnl | backend/dashboard_routes.py:2542-2554 | a day's rounded return never has the opposite sign of its profit |
| Performance.PnlTelescopes | backend/dashboard_routes.py:2526-2565 | between any two days the profits add up to the change in value over cost |
| Performance.PeriodKeepsPnl | backend/dashboard_routes.py:2507-2565 | a period drops exactly the days more than that long before the last, keeps each later day's profit, and sums to last gain minus first |
| Performance.PurchaseMovesPnlByItsGain | backend/dashboard_routes.py:2473-2565 | before rounding, a purchase moves the day's profit by its own gain since purchase, so by nothing exactly when bought at the day's price, empty or unpriced |
| Performance.UnpricedPurchaseIsNeutral | backend/dashboard_routes.py:2429-2434 | a purchase without a price on a day its ticker closed leaves that day's profit unchanged |
| Performance.UnpricedPurchaseOffCloseIsProfit | backend/dashboard_routes.py:2429-2434 | on a day without a close its whole worth shows as profit |
| Performance.RoundedPnlIsNear | backend/dashboard_routes.py:2495-2547 | rounding moves a day's profit by two cents at most |
| Performance.ValueDipsIffGap | backend/dashboard_routes.py:2447-2501 | the value shown is never above the as-of value and is below it exactly when a held ticker is in an interior gap |
| Performance.GapDropsTicker | backend/dashboard_routes.py:2447-2501 | a lot worth 10 on days 1 and 3 that is worth nothing on day 2 |
| Performance.MaxDrawdown | backend/dashboard_routes.py:2579-2589 | the one-pass running peak finds the minimum over all i <= j of gain[j] - gain[i] |
| Performance.GainPctIs | backend/dashboard_routes.py:2567-2589 | the gain percentage times what was invested is a hundred times the gain, and it is 0 where nothing was invested |
| Performance.ZeroDrawdownIffNeverFalls | backend/dashboard_routes.py:2579-2589 | it is never positive, and zero exactly when the gain never falls from one day to the next |
| Performance.BestAndWorst | backend/dashboard_routes.py:2604-2612 | the first of the highest and the first of the lowest daily returns, the first day left out |
| Performance.BuildPerformance | backend/dashboard_routes.py:2385-2629 | the whole pipeline: fewer than two days give nothing; otherwise the period's days in date order, each a series date with its own value and cost, each profit within two cents of the unrounded one between the two dates shown, profits that add up to the last gain minus the first, returns, best and worst day, total return and deepest fall |
| Forecast.Aggregate | backend/dashboard_routes.py:2826-2854 | the streaming last-known pass gives each ticker, on each date, the forecast at its latest date not after it, and nothing before its first |
| Forecast.BuildForecast | backend/dashboard_routes.py:2808-2854 | over exactly the union of forecast dates, a date is shown if and only if its predicted total is positive, with its three totals in cents |
| Forecast.HoldingAddsItsShare | backend/dashboard_routes.py:2831-2845 | a holding, wherever it is listed, adds its quantity times its ticker's as-of band to the predicted, lower and upper totals, and nothing without one; without holdings all three are 0 |
| Forecast.PointsAre | backend/dashboard_routes.py:2846-2854 | the point sequence the loop is proved against shows just those dates and totals |
| Forecast.PointsInOrder | backend/dashboard_routes.py:2826-2854 | lower <= predicted <= upper per ticker with non-negative quantities carries over to every point after rounding |
| Changelog.PrintParse | hooks/pre_commit_checks.py:633-645 | splitting at headings loses nothing |
| Changelog.ParsePrintIff | hooks/pre_commit_checks.py:634-693 | sections in any new order split back exactly when each but the last ends its line |
| Changelog.HeadingLineOpensSection | hooks/pre_commit_checks.py:634-645 | every line of the file that begins with "## " and goes on opens a section, preceded by exactly what stood before it |
| Changelog.SectionOpensAtHeadingLine | hooks/pre_commit_checks.py:634-645 | and only such lines do |
| Changelog.SortIsStable | hooks/pre_commit_checks.py:690 | a permutation, newest first, ties in original order |
| Changelog.ArrangedIsPermutation | hooks/pre_commit_checks.py:672-693 | a rewrite permutes the sections, dated part sorted first, footers last |
| Changelog.FootersConcat | hooks/pre_commit_checks.py:672-693 | footers keep their order |
| Changelog.FixChangelogOrder | hooks/pre_commit_checks.py:618-695 | one run over the file and whether it rewrote it |
| Changelog.RewriteSplitsBackIff | hooks/pre_commit_checks.py:634-693 | re-reading a rewrite gives the arranged sections if and only if the section that came last ends its line or still comes last |
| Changelog.ResultIsArrangedIff | hooks/pre_commit_checks.py:634-693 | for every file with sections, the result is arranged if and only if: where dated neighbours looked ordered, nothing needed arranging; where they did not, the section that came last ends its line or still comes last |
| Changelog.DatedSectionsEndNewestFirst | hooks/pre_commit_checks.py:680-688 | when every section has a date, the neighbour test means newest first |
| Changelog.UndatedSectionHidesDisorder | hooks/pre_commit_checks.py:680-688 | an undated section can hide two dated ones out of order |
| Changelog.FooterStaysWhenOrdered | hooks/pre_commit_checks.py:672-688 | a misplaced footer stays when the dated sections look ordered |
| ChangelogRerun.SecondRunChangesNothing | hooks/pre_commit_checks.py:618-695 | a second run changes nothing, for every file, even one whose open last line ran into the next heading |
| ChangelogRerun.PatternsObeyLaws | hooks/pre_commit_checks.py:647-678 | dates and footers found by searching for patterns free of '#' read glued headings as that result assumes |

## Left out

- HTTP routes, WebSockets, middleware, Pydantic models, dashboards and the frontend.
- Provider, database, pandas and Iceberg calls: their results are arbitrary inputs.
- JWT signing, JSON text, bcrypt and UUIDs: a token is its claims or forged, metadata is a record.
- `RedisTokenStore` and its fail-open paths, and the BYO path when Redis is down or the 40-day expiry passes.
- Floating point: 0.80, 0.70 and 1.20 are exact ratios.
- Performance.BuildPerformance: leaves out the Sharpe ratio and the annualised return (roots and powers), the final two-decimal rounding of the metrics, and the list of stale tickers.
- The line filter that condenses a system prompt: an arbitrary function of the prompt, so every result holds for any filter.
- The date and footer patterns of the changelog: arbitrary functions, with the search laws as an explicit condition where one is needed.
- `get_status`, `get_daily_budget`, `best_available` and the seeding loop over models: readings of the same windows; their pruning is a step of the runs.
- An invoke reads its pin in one step; two readings of it by the source, between which another invoke on the same `FallbackLLM` changes it, are not told apart.
- CascadeThreads.GrantsStayWithinBound: runs start from empty ledgers without seeding or `record`, which nothing in the backend calls.
- `reset_monthly_usage` as a separate loop: it is the loop of `reset_user_usage` over all users.
- SpendBound.GrantKeepsSpendBound: runs start from empty ledgers, before any seeding.
- User ids and jtis that are not UUID strings: the type `Uuid` holds the strings without a colon, which is all the keys need of them.
- Issuing a refresh token at the form login (`auth/endpoints/auth_routes.py:253`): like a refresh, it registers no session.
- UsageTracker.RunConservesUsage: archive writes succeed; `UsageTracker.MaybeResetConservesIff` says what happens when one fails.
