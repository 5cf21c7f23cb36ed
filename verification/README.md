# A verified model of the BIN lookup API

This project models the logic of a service that answers "which bank issued a card with this BIN?" and proves
properties of it in Dafny 4.11. A lookup goes through a positive and a negative TTL cache, a PostgreSQL table answered
by longest prefix (eight digits, then six), and a chain of two external providers whose answers are stored. Around that
stand a two-level rate limiter, circuit breakers, a monthly quota shared by all instances, an offline dataset importer,
a migration ledger and the Luhn checksum.

`dafny verify dfyconfig.toml` checks everything.

## How it is organised

| file | what it models |
|---|---|
| LookupService.dfy | the service as a class: caches, quota, provider chain, one call at a time; the stages of a flight |
| LookupProtocol.dfy | all interleavings of requests, flights, both caches and the table; coherence, no row is overwritten |
| LookupHistory.dfy | the same runs with other writers: bounded staleness, when providers are asked, errors write nothing |
| LookupAnswers.dfy | where each event leads, which answer a flight comes to, and that none is stuck |
| LookupInvariants.dfy | capacity, key format and table shape in every state of the protocol |
| LookupRefinement.dfy | the class is a run of the protocol; the run that shows the negative cache lagging |
| TtlCache.dfy, CacheRuns.dfy | the cache as a class, and its runs against a plain live map |
| TokenBucket.dfy, RateLimiter.dfy | the token bucket, and the limiter as a class |
| ClientTier.dfy, ForgettingShows.dfy | all interleavings of the client table; when forgetting is invisible, and when it is not |
| GateTier.dfy, DelayShows.dfy | the global bucket in front of it; when its bound holds for decisions, and when it does not |
| CircuitBreaker.dfy, Quota.dfy | the provider clients and the monthly quota |
| Bins.dfy, Store.dfy, Text.dfy | records, mappings and validation; the table and its query; trimming and case |
| RecordFields.dfy | what is accepted and shown, field by field |
| DatasetImport.dfy, ImportRace.dfy | the importer as a class; its race with live enrichment |
| FileNames.dfy, Migrations.dfy | reading version numbers; loading, applying, resuming and running migrations concurrently |
| Validator.dfy | BIN syntax and the Luhn checksum |

Code that changes state is modelled by classes and methods with loops, each proved against a specification function;
whole runs and interleavings are step functions over values, and the theorems are about every sequence of steps. In
LookupProtocol and ImportRace an event that cannot happen in a state changes nothing, so the theorems quantify over
all sequences of events.

## Assumptions

- The clock does not go back. Seconds are integers in the caches and reals in the buckets and breakers.
- A SQL statement is one atomic change of a map; row locks are held until the transaction ends. An upsert, or a
  reservation, may be stored and still be reported to the caller as an error.
- `singleflight` runs one function per key at a time and gives its result to everybody who joined; `rate.Limiter` is a
  token bucket over the reals that starts full, and a refused request leaves it unchanged.
- Configured rates, bursts and limits are positive (cmd/api/config.go:125-159); lookups are for valid BINs
  (internal/handler/bin.go:33), so cache keys are not empty.
- Coordinates are stored exactly, and strings are ASCII: a `char` is one byte.

## Where the code behaves differently from what one might expect

- **Iteration order can be seen.** `evictOne` walks a Go map. Cleanups and the choice among expired entries are
  invisible, but when several live entries tie for the oldest, the walk decides which is dropped, and a later `Get` sees it
  (`CacheRuns.TieChangesAnswers`). `CacheRuns.OrderInvisibleIff` is the exact condition, as of the moment the `Set`
  releases the mutex and somebody can look;
  `CacheRuns.OnlySetsAreVisible` shows that distinct `Set` times are enough for a whole run.
- **The empty key.** `evictOne` uses `""` for "none yet", so with an empty key in the cache an eviction can remove nothing
  and the capacity is exceeded; `CacheRuns.EvictsNothingIff` says exactly when. The handler's gate rules it out
  (`LookupInvariants.CachesBounded`).
- **Forgetting idle clients.** `lastSeen` is stamped under the mutex, but the bucket is asked after it is released. A request
  that is slow in between drains the bucket later than `lastSeen` says. Forgetting is invisible if and only if
  `burst <= rate * (ttl - lag)`, where `lag` bounds that delay (`ClientTier.ForgettingIsInvisible`,
  `ForgettingShows.ForgettingShowsOtherwise`); with `lag == 0` this is `burst <= rate * ttl`.
- **The global bound** counts requests by the time they pass the global bucket. Counted by the time of the final decision,
  the window widens by the delay between the two (`GateTier.GlobalBoundByDecision`), and the widening is needed: the
  plain bound holds for decisions if and only if they do not lag (`DelayShows.UnwidenedIff`; `DelayShows.TwoAtOnce` is
  the smallest run).
- **The negative cache is not coherent**, even with a single instance: an 8-digit miss can outlive the enrichment of its
  6-digit prefix (`LookupRefinement.MissesCanLag`). `LookupHistory.StaleEntryIff` says exactly when an entry is stale,
  and `LookupHistory.MissWithinTtl` bounds for how long it can be served.

## Model

| member | source | states |
|---|---|---|
| LookupProtocol.CacheCoherent | internal/service/bin_service.go:75-128 | in every interleaving of any number of lookups with no other writer, every entry of the positive cache, live or expired, is the store's current answer for its key, including an 8-digit key cached from a 6-digit row |
| LookupProtocol.AnswersStayTrue | internal/service/bin_service.go:75-128 | a found answer given to any request, by the cache or by a flight, is still the store's answer in every later state |
| LookupProtocol.SameAnswers | internal/service/bin_service.go:75-128 | all requests of a run that are told a record for one BIN are told the same one |
| LookupProtocol.NeverOverwrites | internal/service/bin_service.go:86-118 | at every step that stores a row, the key has no row and no cache entry, no request was ever told a record for it, and the row stored is that key's |
| LookupProtocol.RowsStay | internal/service/bin_service.go:114-118 | rows are never changed or deleted by lookups |
| LookupProtocol.PersistedOnce | internal/service/bin_service.go:86-118 | each BIN is persisted at most once in a run |
| LookupProtocol.RunAgreed | internal/service/bin_service.go:86-126 | the invariant behind it: a flight past an empty read has a key with no row and no answer ever given, and everything ever obtained agrees with the table |
| LookupProtocol.RunSourced | internal/service/bin_service.go:75-128 | with any other writers: every cached response, every flight's answer and every found answer was obtained from the store by a flight for that key |
| LookupAnswers.StoredRowIsServed | internal/service/bin_service.go:87-95 | with any other writers: a flight that reads a stored row comes to that row's answer and to no other, and everybody who waits for it is given it |
| LookupAnswers.SettledAnswer | internal/service/bin_service.go:86-126 | a found row, a failed read, an empty read with enrichment off, each outcome of binlist and each reply to the upsert settles what its flight will answer, whatever else goes on |
| LookupAnswers.ReadLeads | internal/service/bin_service.go:87-100 | where a read leads: the row found (exact, else prefix), the error, a miss, or the first provider there is |
| LookupAnswers.ReserveLeads | internal/service/bin_service.go:132-158 | Handy is asked after a granted reservation, binlist without one |
| LookupAnswers.HandyLeads | internal/service/bin_service.go:144-158 | a valid Handy record is persisted without asking binlist; anything else leads to binlist |
| LookupAnswers.BinlistLeads | internal/service/bin_service.go:161-183 | a valid binlist record is persisted; not-found is a miss; its limit, an error or an invalid record end the flight |
| LookupAnswers.UpsertLeads | internal/service/bin_service.go:114-118 | a confirmed upsert has stored the row and is answered by it; any other is an error, whether stored or not |
| LookupAnswers.CacheLeads | internal/service/bin_service.go:92-94 | the record is the answer, and is served from the cache for half an hour from then |
| LookupAnswers.MissLeads | internal/service/bin_service.go:110-113 | the miss is the answer, and is served from the cache for five minutes from then |
| LookupAnswers.RequestLeads | internal/service/bin_service.go:76-83 | a request is answered by the positive cache, else by the negative one, else goes on |
| LookupAnswers.EnterLeads | internal/service/bin_service.go:86 | then it leads a new flight for its key, or joins the one there is |
| LookupAnswers.ReleaseLeads | internal/service/bin_service.go:86-136 | a finished flight frees its key and answers exactly those who wait for it |
| LookupAnswers.SomethingMoves | internal/service/bin_service.go:86-126 | no flight is stuck: until it is finished, some event of its own moves it on |
| LookupHistory.ServedWithinTtl | internal/service/bin_service.go:76-80 | with any other writers: a found answer served from the cache at t was read from or written to the store by one flight for that key, which cached it no earlier than t - 30 min |
| LookupHistory.HoldingFrom | internal/service/bin_service.go:87-94 | a flight that holds a record got it from the store itself, by its own read or its own confirmed upsert |
| LookupHistory.MissWithinTtl | internal/service/bin_service.go:81-83 | with any other writers: a not-found served from the cache at t was remembered no earlier than t - 5 min by a flight for that key that read nothing and, with enrichment on, was told not-found by binlist |
| LookupHistory.MissingFrom | internal/service/bin_service.go:96-113 | what a flight has seen when it is about to remember a miss |
| LookupHistory.StaleMissIff | internal/service/bin_service.go:86-113 | with no other writer, what a flight read as missing is found later if and only if in the meantime a flight for the BIN or for its 6-digit prefix stored a row |
| LookupHistory.StaleEntryIff | internal/service/bin_service.go:81-113 | so each entry of the negative cache, live or expired, disagrees with the store if and only if a row that answers its key was stored after the read of the flight that remembered the miss |
| LookupRefinement.MissesCanLag | internal/service/bin_service.go:81-113 | a concrete run in which a remembered miss disagrees with the store although nobody else writes it: an 8-digit miss followed by the enrichment of its prefix |
| LookupHistory.AskedOnlyIfUnknown | internal/service/bin_service.go:86-101 | with no other writer, a provider is asked about a BIN only while it has no row, by a flight whose own read preceded every row that could answer it; so once a 6-digit row exists no later reader of an 8-digit extension goes to a provider |
| LookupHistory.EnrichesAfterRead | internal/service/bin_service.go:87-101 | with any other writers: a flight is in the provider chain only with enrichment on and after its own read found nothing |
| LookupHistory.HandyAfterReservation | internal/service/bin_service.go:132-143 | each Handy request follows a confirmed reservation made by the same flight and used by no other request |
| LookupHistory.ErrorsWriteNothing | internal/service/bin_service.go:101-118 | a flight that ends in an error has written neither cache |
| LookupHistory.FlightIsShort | internal/service/bin_service.go:86-126 | a flight only moves forward, and takes at most seven steps whatever happens around it |
| LookupHistory.RunLosesNobody | internal/service/bin_service.go:86-136 | nobody waits for a key that has no flight |
| LookupHistory.SharedAnswer | internal/service/bin_service.go:86-136 | everybody who waits for a flight gets that flight's answer |
| LookupInvariants.CachesBounded | pkg/cache/cache.go:41-51 | in every reachable state only valid BINs are looked up and cached, and both caches stay within 20,000 and 50,000 entries |
| LookupInvariants.StoresOnlyGoodRows | internal/service/bin_service.go:209-290 | whatever providers answer, a flight only persists a row for its own key that fits the table and is not local |
| LookupInvariants.TableStaysGood | internal/service/bin_service.go:114-118 | every table reached by lookups satisfies the key format, the widths and the shape of local rows, if the other writers keep them |
| LookupService.Service.constructor | internal/service/bin_service.go:55-72 | a service starts with empty caches of 30 min / 20,000 and 5 min / 50,000 entries, a limit of 3,000 when none is configured, and Handy only with a non-blank key |
| LookupService.Service.LookupEnrichment | internal/service/bin_service.go:130-184 | Handy is asked iff a unit of the month's quota is left and confirmed; its valid record is returned at once; otherwise binlist is asked and its outcome decides: limit, error, not-found, valid record or invalid one; every failure is listed among the causes, never none; the exact quota after the call |
| LookupService.Service.Fly | internal/service/bin_service.go:86-126 | the decision table of a lookup that no cache answers: answer, table and providers asked for every reply of the database, the quota, Handy, binlist and the upsert; a stored row is always served; only found answers and misses are cached |
| LookupService.Service.Lookup | internal/service/bin_service.go:75-136 | the whole effect of one call: a live cached answer is served and changes nothing; otherwise the decision table, and the answer is served from its cache for 30 or 5 minutes; a failure writes neither cache; a coherent cache stays coherent |
| LookupService.DecidesEnd | internal/service/bin_service.go:86-126 | the decision table is what the stages of a flight lead to |
| LookupService.Service.Upsert | internal/repository/postgres/bin_repo.go:43-75 | the reply that can be stored and still reported as an error |
| LookupService.NewRowKeepsAnswers | internal/repository/postgres/bin_repo.go:25-35 | a row for an absent key changes no other key's found answer, although 8-digit keys can be answered by 6-digit rows |
| LookupRefinement.CallIsARun | internal/service/bin_service.go:75-136 | the effect of one call of the service, as its contract states it, is reached by a run of the protocol's steps |
| Store.QueryIsLongestPrefix | internal/repository/postgres/bin_repo.go:25-40 | over unique keys, the answers of the OR / ORDER BY LENGTH / LIMIT 1 query are exactly one: exact row, else 6-digit prefix row, else nothing |
| Store.UpsertChanges | internal/repository/postgres/bin_repo.go:43-75 | an upsert changes the answer for its own key and for the 8-digit keys whose only match is that prefix, and no other |
| Bins.ParseRow | cmd/importer/main.go:239-283 | refuses a row by column count, BIN, country code or width, in that order, and otherwise gives its record |
| Bins.ParsedRowGood | cmd/importer/main.go:239-283 | an accepted row fits every column and is local, with unknown prepaid and coordinates |
| RecordFields.RowAcceptedIff | cmd/importer/main.go:239-267 | which dataset rows are accepted, by named column, and which error each other row gets; the three-letter country code is never looked at |
| RecordFields.RowShown | cmd/importer/main.go:269-283 | every field the API shows of an accepted row, by named column |
| RecordFields.RowRoundTrip | cmd/importer/main.go:239-283 | what an import has stored can be imported again and gives the same row |
| RecordFields.BinlistValidIff | internal/service/bin_service.go:209-290 | which binlist answers pass validation, in terms of the fields received |
| RecordFields.HandyValidIff | internal/service/bin_service.go:209-290 | which Handy answers pass validation, in terms of the fields received |
| RecordFields.BinlistShown | internal/service/bin_service.go:259-276 | every field the API shows of a binlist answer: its scheme is the brand, its brand the category |
| RecordFields.HandyShown | internal/service/bin_service.go:278-290 | every field the API shows of a Handy answer: its issuer is the bank, its card tier the category |
| RecordFields.ResponseIsLossless | internal/model/bin.go:54-74 | the response shows the whole record except for its source |
| Bins.IsAsciiUpper | cmd/importer/main.go:286-296 | exactly n upper-case ASCII letters |
| Bins.IsAsciiAlpha | internal/service/bin_service.go:247-257 | exactly n ASCII letters |
| Bins.IsValidEnrichment | internal/service/bin_service.go:209-245 | true iff BIN, widths, country code and coordinates are valid and some identifying field is not blank |
| Bins.EnrichedRecordGood | internal/service/bin_service.go:209-290 | a mapped provider answer that passes validation fits the table as stored and is never local |
| Text.TrimPads | internal/service/bin_service.go:228-240 | trimming removes nothing but outer spaces: the original is the result between spaces |
| Text.TrimTrims | internal/service/bin_service.go:228-240 | and it leaves no outer space, and a trimmed text as it is |
| Text.TrimsAround | internal/service/bin_service.go:228-240 | any run of tabs, line ends, page breaks and blanks around a text is trimmed off |
| Text.CaseLaws | internal/service/bin_service.go:259-290 | changing case changes nothing but the case |
| Text.LetterPairs | internal/service/bin_service.go:259-290 | the letters correspond in alphabetical order |
| Text.CaseKeepsTrim | internal/service/bin_service.go:259-290 | changing case keeps a trimmed field trimmed, so what is checked is what is stored |
| TtlCache.Cache.constructor | pkg/cache/cache.go:25-38 | empty, with a capacity of at least one |
| TtlCache.Cache.Set | pkg/cache/cache.go:41-51 | for some iteration order of the map, the new items are the old ones without that order's victim (only for a new key at capacity) plus the entry |
| TtlCache.Cache.EvictOne | pkg/cache/cache.go:53-69 | removes exactly the victim of the iteration order it walked: the first expired key, else the first oldest, else nothing |
| TtlCache.Cache.Get | pkg/cache/cache.go:72-80 | the value up to and including the expiry instant, else nothing |
| TtlCache.Cache.Cleanup | pkg/cache/cache.go:82-101 | exactly the live entries remain |
| CacheRuns.VictimIsEvictable | pkg/cache/cache.go:53-69 | every iteration order removes one entry: an expired one, or an oldest one when all are live |
| CacheRuns.EvictableIsVictim | pkg/cache/cache.go:53-69 | and each such entry is removed by some iteration order |
| CacheRuns.EvictsNothingIff | pkg/cache/cache.go:53-69 | an eviction can remove nothing if and only if all entries are live and the empty key's entry is strictly the oldest (the `""` marker) |
| CacheRuns.NeverOverCapacity | pkg/cache/cache.go:41-51 | over every run, never more than maxEntries entries, for non-empty keys |
| CacheRuns.StepRefines | pkg/cache/cache.go:41-96 | each operation is a step of a live map that drops one oldest live entry only when a non-live key is set with maxEntries live keys; cleanup is a stutter |
| CacheRuns.StepRealises | pkg/cache/cache.go:41-96 | and the cache can follow every choice of the live map |
| CacheRuns.RunRefines | pkg/cache/cache.go:41-96 | every run answers its reads like a run of the live map |
| CacheRuns.RunRealises | pkg/cache/cache.go:41-96 | and every run of the live map is some run of the cache |
| CacheRuns.EntriesAreLatest | pkg/cache/cache.go:41-51 | each entry is the one its key's latest Set wrote |
| CacheRuns.ReadsLatestValue | pkg/cache/cache.go:72-80 | a read returns the value of the latest Set of the key, and never after its time to live |
| CacheRuns.Retained | pkg/cache/cache.go:41-69 | until its time to live is over, a key set at s is kept unless maxEntries distinct other keys were set at clock readings from s on |
| CacheRuns.ReadsWithinTtl | pkg/cache/cache.go:41-80 | the same guarantee as a reader sees it |
| CacheRuns.OrderInvisibleIff | pkg/cache/cache.go:53-69 | for a Set that evicts: what readers find once it is done does not depend on the iteration order if and only if some entry has expired by then or a single entry is the oldest |
| CacheRuns.TieChangesAnswers | pkg/cache/cache.go:53-69 | three operations with two different answers: entries that tie for oldest make the iteration order visible |
| CacheRuns.OnlySetsMatter | pkg/cache/cache.go:72-96 | reads and cleanups do not influence the live map |
| CacheRuns.OnlySetsAreVisible | pkg/cache/cache.go:41-96 | with distinct Set times, what is live depends on the Sets alone, not on iteration orders, expired victims or cleanups |
| TokenBucket.Limiter.Allow | internal/middleware/ratelimit.go:58 | admits iff a token is there, and takes exactly one |
| TokenBucket.FullWhenIdle | internal/middleware/ratelimit.go:78-80 | a bucket left alone for burst / rate is full again |
| TokenBucket.WithinBudget | internal/middleware/ratelimit.go:56-69 | the bound on one bucket's admissions in a window: burst + rate * length |
| RateLimiter.RateLimiter.constructor | internal/middleware/ratelimit.go:42-54 | full global and overflow buckets, an empty table, first sweep after a minute |
| RateLimiter.RateLimiter.ClientLimiter | internal/middleware/ratelimit.go:71-99 | sweeps when due, then: the known client's bucket with lastSeen renewed, the overflow bucket when the table is full, or a new full bucket; no two clients share a bucket |
| RateLimiter.RateLimiter.Sweep | internal/middleware/ratelimit.go:77-84 | exactly the clients idle for longer than the TTL are forgotten |
| RateLimiter.RateLimiter.Handle | internal/middleware/ratelimit.go:56-69 | a request refused by the global bucket touches no table entry and no other bucket; any other costs a global token even if its client is refused, asks exactly one more bucket (the client's own, the overflow's or a new one) and leaves the other clients' alone |
| ClientTier.RunInv | internal/middleware/ratelimit.go:71-99 | over every interleaving: a client in the table cannot tell its bucket from one kept for ever, any other client's would be full, and whoever holds a bucket keeps its seat |
| ClientTier.TableBounded | internal/middleware/ratelimit.go:71-99 | over every sequence of events, never more than maxClients clients in the table |
| ClientTier.ForgettingIsInvisible | internal/middleware/ratelimit.go:58-99 | if burst <= rate * (ttl - lag) and the table is never full, every answer is that of a table which keeps every client for ever, whenever sweeps run |
| ForgettingShows.ForgettingShowsOtherwise | internal/middleware/ratelimit.go:58-99 | and whenever that condition fails there is a run that admits a request the unbounded table refuses |
| ClientTier.ClientBound | internal/middleware/ratelimit.go:56-99 | under the condition, in every history (full table, overflow, forgetting, readmission) a client gets at most 2 * (burst + rate * T) in any window of length T |
| GateTier.GlobalBound | internal/middleware/ratelimit.go:56-69 | in every history, the admitted requests that passed the gate in a window of length T are at most globalBurst + globalRPS * T |
| GateTier.GlobalBoundByDecision | internal/middleware/ratelimit.go:56-69 | counted by decision time instead, the window widens by the time between gate and decision |
| DelayShows.TwoAtOnce | internal/middleware/ratelimit.go:56-69 | the smallest run that needs the widening: one global token a second, and two decisions at the same instant |
| DelayShows.DelayShowsUp | internal/middleware/ratelimit.go:56-69 | for any delay > 0, and a client table with room for globalBurst + 1 requests at once, a history with globalBurst + 1 decisions in a window whose own budget is smaller |
| DelayShows.UnwidenedIff | internal/middleware/ratelimit.go:56-69 | so with such a table globalBurst + globalRPS * T bounds the decisions of every history and window if and only if decisions do not lag behind the gate |
| CircuitBreaker.Client.AllowRequest | pkg/handyapi/client.go:157-167 | a refusal by the breaker leaves the limiter untouched; otherwise the limiter decides and loses at most one token |
| CircuitBreaker.Client.RecordFailure | pkg/binlist/client.go:137-145 | the third failure in a row opens the breaker for five minutes and starts the count again |
| CircuitBreaker.Client.RecordSuccess | pkg/binlist/client.go:147-152 | closes the breaker |
| CircuitBreaker.Client.Lookup | pkg/handyapi/client.go:101-155 | whether the request is admitted and what that costs the limiter; for each reply, by status and body, the outcome and the breaker after it |
| CircuitBreaker.RepliesAreEvents | pkg/binlist/client.go:87-123 | a history of replies is a history of failures (no reply, 429, 5xx, an unusable 200, for Handy also 401 and 403) and successes (404, a usable 200), all other replies counting for nothing |
| CircuitBreaker.UnknownBinsKeepItClosed | pkg/binlist/client.go:95-98 | any number of BINs that a provider does not know never opens its breaker |
| CircuitBreaker.TwoFailuresKeepItClosed | pkg/binlist/client.go:137-145 | with fewer than three broken replies the breaker has never opened |
| CircuitBreaker.ThreeFailuresOpenIt | pkg/binlist/client.go:137-145 | three broken replies in a row open it for five minutes after the third |
| CircuitBreaker.CountsInThrees | pkg/binlist/client.go:137-152 | over every history, the count is the number of failures in a row modulo three, so 0, 1 or 2 |
| CircuitBreaker.OpenUntilLatest | pkg/binlist/client.go:137-152 | openUntil is five minutes after the latest opening that no success has ended |
| CircuitBreaker.RefusedIff | pkg/binlist/client.go:125-135 | a request at t is refused by the breaker if and only if some opening o with t < o + 5 min has no success after it |
| CircuitBreaker.FourthCallWaits | pkg/handyapi/client.go:157-184 | of sequential failing calls, each waits five minutes after the third one before it |
| CircuitBreaker.AtMostThreeCalls | pkg/handyapi/client.go:157-184 | so any half-open five-minute window holds at most three |
| CircuitBreaker.ConcurrentBound | pkg/handyapi/client.go:157-184 | with at most k calls at a time, in any interleaving of requests and recorded failures, a half-open five-minute window holds at most k + 2 requests |
| CircuitBreaker.ConcurrentBoundReached | pkg/handyapi/client.go:157-184 | and for every k >= 1 some history has k + 2 |
| Quota.Table.TryConsume | internal/repository/postgres/bin_repo.go:85-110 | the atomic statement: reserves iff the counter is below the limit |
| Quota.GrantsExactly | internal/repository/postgres/bin_repo.go:85-110 | of n reservations in a period with limit L and u already used, exactly min(n, L - u) succeed and the counter says so |
| Quota.GrantsUpToLimit | internal/repository/postgres/bin_repo.go:85-110 | from an empty period: min(n, L) |
| Quota.OneRequestPerReservation | internal/service/bin_service.go:132-143 | a granted and confirmed reservation is good for one request and no more |
| Quota.RequestsWithinQuota | internal/service/bin_service.go:132-143 | over every history of instances, crashes and lost replies, the requests of a month never exceed the limit |
| DatasetImport.Repository.Begin | internal/repository/postgres/bin_repo.go:134-165 | opens a transaction with an empty staging table |
| DatasetImport.Repository.Stage | internal/repository/postgres/bin_repo.go:168-180 | a batch is staged as a whole; without a database failure it fails iff it holds a BIN twice or a row that does not fit |
| DatasetImport.Repository.Commit | internal/repository/postgres/bin_repo.go:212-285 | publishes iff the number of staged rows is the number read (without a database failure); otherwise table and audit are untouched |
| DatasetImport.Repository.Rollback | internal/repository/postgres/bin_repo.go:288-294 | discards what was staged |
| DatasetImport.Repository.RecordFailure | internal/repository/postgres/bin_repo.go:297-313 | adds at most one failure record |
| DatasetImport.Repository.Import | cmd/importer/main.go:103-207 | for any rows, batch size and database failures: success publishes exactly the rows, failure leaves the table untouched and adds at most one failure record, exactly one if the database does not fail; without a failure of the database the import succeeds iff the rows are non-empty, parse and have distinct BINs, whatever the batch size |
| DatasetImport.EachRowImported | cmd/importer/main.go:103-207 | after an import, each dataset row is there as parsed, and any other row is there iff it was and is not local |
| DatasetImport.Repository.ReadAll | cmd/importer/main.go:160-200 | after the loop every row is staged, wherever the batches ended |
| DatasetImport.StagedAppend | cmd/importer/main.go:160-196 | staging batch by batch is staging all rows at once |
| DatasetImport.StagedSize | internal/repository/postgres/bin_repo.go:212-220 | counting staged rows detects every repeated BIN, across batches too |
| DatasetImport.CommitPublishes | internal/repository/postgres/bin_repo.go:221-262 | merge followed by delete is the publication: staged rows, plus other rows that are not local |
| DatasetImport.OrderIrrelevant | cmd/importer/main.go:160-196 | the published table depends only on the set of rows |
| DatasetImport.ExactPublish | internal/repository/postgres/bin_repo.go:221-262 | afterwards the local BINs are exactly the staged ones, and the other rows are exactly the old non-local rows that were not staged |
| DatasetImport.Conservation | internal/repository/postgres/bin_repo.go:221-262 | |new| + deleted == |old| + |staged minus old| |
| DatasetImport.Idempotent | internal/repository/postgres/bin_repo.go:221-262 | importing the same rows again deletes nothing and changes nothing |
| DatasetImport.Replaces | internal/repository/postgres/bin_repo.go:221-262 | a later dataset replaces an earlier one completely and loses no enrichment outside both |
| DatasetImport.ReachableTableGood | internal/repository/postgres/bin_repo.go:212-285 | every table reached by imports, rollbacks and enrichment has valid keys, fits the widths and has plain local rows |
| ImportRace.Serialisable | internal/repository/postgres/bin_repo.go:221-285 | however upserts interleave with merge, delete, commit or rollback, the outcome is that of a serial order of the import and all of them |
| ImportRace.RunPublishes | internal/repository/postgres/bin_repo.go:212-285 | a run that holds merge, delete and commit in order and no rollback publishes the dataset, over the early upserts and under the late ones |
| ImportRace.CommitIsPublished | internal/repository/postgres/bin_repo.go:281-284 | the commit publishes the dataset over the table as it is by then, and then lets the waiting upserts in |
| ImportRace.AbortIsDiscarded | internal/repository/postgres/bin_repo.go:288-294 | a rollback leaves the table as it is, and then lets the waiting upserts in |
| ImportRace.StatementsAdvance | internal/repository/postgres/bin_repo.go:221-285 | each statement takes effect when its turn has come |
| ImportRace.AloneItPublishes | internal/repository/postgres/bin_repo.go:221-285 | without upserts the outcome is the plain import |
| ImportRace.StagedRowIsThere | internal/repository/postgres/bin_repo.go:221-262 | a staged row is there after the commit unless a later upsert replaced it |
| ImportRace.EveryUpsertCounts | internal/repository/postgres/bin_repo.go:221-285 | each upsert is accounted for exactly once: before the import, after it, or still waiting |
| ImportRace.EnrichmentSurvives | internal/repository/postgres/bin_repo.go:221-262 | no enrichment of a BIN outside the dataset is lost |
| Migrations.Load | internal/database/migrate.go:69-106 | succeeds iff every file name is valid and no version repeats, and then gives exactly the files' migrations (version, name, contents, checksum of the contents) in ascending order; otherwise it reports the first bad file and what is wrong with it, a repeated version with the earlier file's name |
| Migrations.VersionIff | internal/database/migrate.go:81-88 | a file name has version v if and only if it is a plus sign or none, zeros or none, v in decimal, an underscore and anything; v from 1 to the largest int64 |
| Migrations.VersionErrors | internal/database/migrate.go:81-88 | a name is refused for having nothing before an underscore, or no version there |
| Migrations.FirstMigrationName | internal/database/migrate.go:81-88 | 001_create_bins.sql is a migration file of version 1 |
| FileNames.DecimalParses | internal/database/migrate.go:85 | decimal notation, with any leading zeros, is read as its number |
| FileNames.ParsedDecimal | internal/database/migrate.go:85 | and nothing else is |
| FileNames.FirstIndex | internal/database/migrate.go:81 | the position found is that of the first occurrence |
| Migrations.SortByVersion | internal/database/migrate.go:105 | ascending, and a permutation |
| Migrations.Connection.ApplyMigration | internal/database/migrate.go:109-145 | a file's effect and its ledger row appear together or not at all; a recorded file is only verified |
| Migrations.Connection.MigrateAll | internal/database/migrate.go:61-66 | stops at the first failure |
| Migrations.RunKeepsLedger | internal/database/migrate.go:31-67 | any run keeps effects and ledger in step and undoes nothing; a run that returns nil leaves every file recorded with its checksum |
| Migrations.MismatchStops | internal/database/migrate.go:120-128 | after a checksum mismatch no version from it on is newly applied in that run |
| Migrations.ResumesToUninterrupted | internal/database/migrate.go:31-145 | after any number of interrupted runs, the first that returns nil leaves exactly the database of one uninterrupted run, each file executed once in ascending order |
| Migrations.SmoothFrom | internal/database/migrate.go:31-145 | with every transaction committing, a run over a database that has the first k files succeeds and completes it |
| Migrations.RerunSucceeds | internal/database/migrate.go:117-128 | a run over a complete database succeeds and changes nothing |
| Migrations.NextRunSucceeds | internal/database/migrate.go:31-145 | after any number of interrupted runs the next undisturbed one succeeds and completes the schema |
| Migrations.HolderMovesOn | internal/database/migrate.go:38-67 | in any state, a statement of the lock holder that does not fail moves it on |
| Migrations.InstanceSucceeds | internal/database/migrate.go:38-67 | an instance that finds the lock free and whose statements all commit returns nil with the schema complete |
| Migrations.ConcurrentRuns | internal/database/migrate.go:38-67 | with any number of instances crashing anywhere, the schema is always a prefix of the files in order, once each; it is complete once any instance returned nil |
| Validator.IsValidBin | pkg/validator/card.go:4-14 | true iff 6 or 8 ASCII digits |
| Validator.Luhn | pkg/validator/card.go:18-38 | the left-to-right parity loop is the right-to-left definition of ISO/IEC 7812-1, Annex B, on 13 to 19 digits |
| Validator.KnownNumbers | pkg/validator/card.go:18-38 | 4111111111111111 is accepted and 4111111111111112 is not |
| Validator.DetectsSingleDigitError | pkg/validator/card.go:18-38 | changing any one character of an accepted number makes it rejected |
| Validator.DetectsAdjacentSwap | pkg/validator/card.go:18-38 | swapping two different neighbours goes unnoticed if and only if they are 0 and 9 |
| Validator.CheckDigitIsUnique | pkg/validator/card.go:18-38 | every payload of 12 to 18 digits is completed by exactly one character |

## Left out

- HTTP transport, JSON decoding, `Country.UnmarshalJSON`, Gin routing, CORS, authentication, request IDs, health probes, access
  logging, metrics, startup and shutdown, `Stats` and `Count`: plumbing or single-branch behaviour. A provider's reply is
  a status and a body that is unreadable, malformed or parsed.
- Environment parsing, command-line flags, file-path checks and CSV lexing: the importer starts from rows that are already split, and a
  row that the lexer refuses is not distinguished from one that `parseRow` refuses.
- Row ids, timestamps, audit texts and provenance fields; `startOfUTCMonth` is an opaque month.
- The PostgreSQL engine, SQL text, `DECIMAL(9,6)` rounding and the limit on statement parameters; SHA-256 is a parameter of the loader.
- LookupProtocol.CacheCoherent: does not hold with other writers (another instance, an importer), and is not claimed there;
  `LookupHistory.ServedWithinTtl` is what holds then.
- LookupProtocol: does not model that a request stops waiting when its own context is cancelled, nor a panic inside a flight; a
  cancelled leader shows as a failed read, a failed provider call or a failed upsert.
- LookupProtocol: does not contain the providers' breakers, limiters and the quota table, only what they answer; those are
  modelled in CircuitBreaker and Quota.
- LookupService.Service: shares no state between concurrent calls, because a method runs to its end; the interleavings are in LookupProtocol.
- DatasetImport.Repository.Import: does not model a commit that succeeds although the caller sees an error, nor that the connection is lost between
  rollback and audit other than as a failed audit.
- ImportRace.Serialisable: upserts that wait for a lock of the import proceed in the order in which they began to wait, which is one of the orders
  PostgreSQL may choose; and one import at a time, as the advisory lock ensures.
- TokenBucket.Limiter.Allow: reads its clock and takes its token in one step, while `rate.Limiter` reads the clock before it
  takes its own lock; and tokens are exact reals.
- ClientTier.RunInv: takes an upper bound `lag` on the time between the table lookup and the token request as given; the code itself sets none.
- ForgettingShows.ForgettingShowsOtherwise: for times to live that are not negative.
- Migrations.InstanceSucceeds: runs the holder's statements one after the other; for any other interleaving `HolderMovesOn` says what each of
  them does.
- CircuitBreaker.ConcurrentBound: is about calls that are all recorded as failures; while calls succeed, or fail without being
  recorded, only the provider's own limiter bounds them.
- DelayShows.UnwidenedIff: for client tables with room for globalBurst + 1 requests at once (burst * (maxClients + 1) > globalBurst),
  as the defaults in cmd/api/config.go:63-72 give. A smaller table holds decisions back by itself, and whether it keeps them within the plain bound depends on its rates too.
- Migrations.ConcurrentRuns: the advisory lock is lost exactly when its instance ends or crashes; the schema is the list of executed files, and a file that manages its own
  transactions is not modelled.
- Internals of `singleflight` and `rate.Limiter` are taken by contract, as stated above.
