# Verified models of the marketplace MCP server

A Dafny model of the stateful core of an Ozon and Wildberries MCP server and of two of its
operations scripts, with proofs about whole runs. Each module follows one component:

| module | component |
|---|---|
| `JwksCache` | the JWKS cache with single-flight refresh (`src/auth/jwks.rs`) |
| `RouteJournal` | the route reconciler with its write-ahead journal (`scripts/marketplace_routes.py`) |
| `PostingSales` | the posting-sales accumulator (`src/ozon_posting_sales.rs`) |
| `OzonPacing`, `OzonRetry` | departure gates, permits, 429 cooldowns and the retry loop (`src/ozon.rs`, `src/ozon/attempt.rs`, `src/retry.rs`) |
| `PerformancePacing` | the shared read/write pacer of the Performance API (`src/ozon_performance.rs`) |
| `JsonRpcEnvelope`, `HttpAdmission` | the streaming JSON-RPC classifier and the MCP permit lifecycle (`src/http.rs`, `src/http/request.rs`) |
| `AccessRegistry`, `RegistryCache` | registry validation, selectors and the hot-reload cache (`src/config.rs`, `src/config/`) |
| `LcovMerge` | merging and rendering LCOV reports (`scripts/sonar-lcov-normalize.py`) |
| `Common`, `Decimal` | options, results, weighted sums and permit holders; decimal numerals |

Two kinds of model are used. Code that one caller runs from start to end (the accumulator, the
reconciler, the validators, the retry loop, the report merger) is a class or a method with the
source's own loops, proved against a declarative specification. Code that several tasks run at once
(the caches, the gates, the semaphores, the pacer) is in addition a state machine: every lock
region, clock sample and await point is a step of its own, `Exec` runs any list of steps, and the
results hold after every list of steps that is a run. The clock is a number that never decreases.

A crash, an alarm or a cancelled future is a run that stops: the reconciler's world keeps a history
of every state it passed through, and the machines have steps that drop a call at any phase.

What comes from outside is a parameter or an arbitrary choice: `DecodingKey::from_jwk`, JSON
decoding of registry bytes, the classification of IP addresses, resolver answers, route readbacks,
the outcome of every command and file replacement, network replies, clocks, and path resolution
for coverage reports.

One place where the code does less than its comment says: src/ozon/attempt.rs:83-85 speaks of holding
back every caller with the same Client-Id during a vendor delay, and the guard before it leaves out
the analytics path. The model follows the code; `OzonRetry.VendorDelayIsShared` states exactly when
the two agree.

## Model

| member | source | states |
|---|---|---|
| JwksCache.NewCachedJwks | src/auth/jwks.rs:26-40 | the pre-parsed key map agrees, for every `kid`, with a first-match lookup in the fetched key set, unusable material included |
| JwksCache.JwksCacheCell.RecordFetch | src/auth/jwks.rs:174-198 | what a completed fetch leaves in the cache and in the two cooldown clocks, and the answer the fetching call returns |
| JwksCache.StepKeepsInv | src/auth/jwks.rs:146-198 | every step of every call (read, gate, re-check, probe, fetch, write, cancel) keeps the cache equal to what the recorded fetches say, the gate exclusive, and each answer justified |
| JwksCache.RecordKeepsPaced | src/auth/jwks.rs:118-144 | a fetch closer than 5 s to the previous one was made for an unknown `kid` after one that was not |
| JwksCache.OneOfTwoGapsIsLong | src/auth/jwks.rs:118-198 | in any run, with any sequence of `kid`s, of two adjacent gaps between recorded fetches at least one is 5 s or more |
| JwksCache.FetchRateIsBounded | src/auth/jwks.rs:118-198 | over any window of a run, k gaps between recorded fetches span at least 5 * floor(k / 2) seconds |
| JwksCache.SingleFlight | src/auth/jwks.rs:158-166 | at most one call is ever between taking the gate and finishing its refresh |
| JwksCache.AnswersAreJustified | src/auth/jwks.rs:118-198 | a key is the one built from the first JWK with that `kid` in the latest set, younger than the TTL; `InvalidToken` means that set lacks the `kid`; `VerifierUnavailable` means the latest fetch failed under 5 s ago or that JWK is unusable |
| JwksCache.ReadsAnswerExactly | src/auth/jwks.rs:118-167 | what a cache read must do, in any run: a JWK that the latest set still serves decides the answer whatever the cooldown clocks say; without one the call is refused as unavailable exactly when the last fetch failed under 5 s ago, refused as invalid exactly when not so, the set is fresh and an unknown `kid` was looked for in vain under 30 s ago, and goes on to the gate or the fetch otherwise |
| JwksCache.UnknownAtIsSince | src/auth/jwks.rs:179-195 | the unknown-`kid` clock is the time of the fetch that last saw an unknown `kid`, unless a later fetch succeeded without one |
| JwksCache.FindIsFirst | src/auth/jwks.rs:19-22 | a lookup finds the first JWK with the `kid`, and misses only what no JWK carries |
| RouteJournal.SafeAt | scripts/marketplace_routes.py:202-243 | reads a safe history point by point, the form in which `RunOnce` promises it |
| RouteJournal.World.AddRoute | scripts/marketplace_routes.py:117-119 | adding needs the address in the persisted journal first, and whether the command works or raises the state stays recoverable |
| RouteJournal.World.DeleteRoute | scripts/marketplace_routes.py:121-123 | deleting needs a journaled address whose current route matches, and whether it works or raises the state stays recoverable |
| RouteJournal.World.Save | scripts/marketplace_routes.py:279-289 | an atomic replace that may raise on either side of the rename; only a loadable journal that covers every added route is ever written |
| RouteJournal.Run.RemoveOwned | scripts/marketplace_routes.py:202-210 | on success exactly the listed addresses leave the journal and none of them is still a route of this tool; on any failure the state stays recoverable |
| RouteJournal.Run.MakePlan | scripts/marketplace_routes.py:151-177 | a plan wants exactly the marketplace addresses, all public IPv4, and adds exactly those not routed directly; it exists only if the VPN addresses are others, at most 64 in all, each read on an open tunnel, the LAN default is direct and the gateway was read on the configured interface |
| RouteJournal.Run.Claim | scripts/marketplace_routes.py:230-233 | an address counts as created only once it is in the persisted journal |
| RouteJournal.Run.AddEach | scripts/marketplace_routes.py:228-236 | the addresses created are a prefix of the plan and are all journaled, even when the loop stops in the middle; with every command working each of them ends with the tool's own marked route |
| RouteJournal.Run.Reconcile | scripts/marketplace_routes.py:213-243 | success gives owned = (owned before and wanted) plus added, removed = owned before minus wanted, and a final look with nothing left to add, which under stable DNS saw every wanted address routed directly; a run that fails after it began to add and cleans up leaves owned = (owned before and wanted) minus what it created, and none of its routes, and it does clean up whenever commands work; a first look that shows an explicit host route to an address to add ends with no report and no act; with nothing to add or remove the run acts on nothing; failure anywhere keeps a safe history |
| RouteJournal.Run.Undo | scripts/marketplace_routes.py:240-242 | a clean undo removes exactly what the run created, from the journal and from the table |
| RouteJournal.MarkedIsJournaledAndDirect | scripts/marketplace_routes.py:133-148 | a marked route is a journaled one that is direct, and a journaled one that is not has the wrong interface or is blocked |
| RouteJournal.Run.Rollback | scripts/marketplace_routes.py:366-371 | a successful rollback leaves no route of this tool in the table and an empty journal, and it succeeds whenever every readback and command works |
| RouteJournal.RunOnce | scripts/marketplace_routes.py:257-293 | a whole process started on any recoverable state, including what a crash left: at every moment of its history each route the tool added that is still in the table is journaled with the gateway it was added with, every saved journal is loadable, adds and deletes touch journaled addresses only, a delete hits only a matching route, and the recorded configuration changes only while nothing is owned; apply succeeds exactly with a report, whose owned list is the journal; a configuration that is not acceptable, or not the recorded one while something is owned, changes nothing, and with every command working a rollback succeeds exactly in every other case |
| RouteJournal.ApplyTwice | scripts/marketplace_routes.py:213-243 | a second run that sees what the end of the first saw adds, removes and saves nothing |
| PostingSales.Accumulator.AddUnits | src/ozon_posting_sales.rs:162-199 | the three checked additions fail exactly when the matching total would exceed 64 bits: the row and status additions never fail on their own |
| PostingSales.Accumulator.AbsorbProduct | src/ozon_posting_sales.rs:162-199 | a product whose JSON denotes a SKU and a quantity adds that line to the represented sums, or fails for exactly the reason the true sums give; any other product fails |
| PostingSales.ProductsAreReadExactly | src/ozon_posting_sales.rs:168-170 | a product is accepted exactly when its "sku" and "quantity" members each denote a positive 64-bit number, and each lands in its own field |
| PostingSales.ParsesExactlyNumerals | src/ozon_posting_sales.rs:306-312 | text is read as n exactly when it is the printed n behind any zeros and an optional plus sign |
| PostingSales.PostingsAreReadExactly | src/ozon_posting_sales.rs:127-148 | a posting is accepted exactly when its number, status and products members are what the JSON says, in bounds and of the allowed characters |
| PostingSales.CursorsAreReadExactly | src/ozon_posting_sales.rs:273-294 | there is a next page exactly when has_next is true, at the safe non-empty cursor |
| PostingSales.PagesAreReadExactly | src/ozon_posting_sales.rs:115-160 | a page is well formed exactly when its JSON says so, and then it is what the JSON says |
| PostingSales.Accumulator.AbsorbPosting | src/ozon_posting_sales.rs:127-157 | one posting is counted once and all its products are absorbed, or the failure is its own shape, the page bound or something the true sums show |
| PostingSales.Accumulator.AbsorbPage | src/ozon_posting_sales.rs:115-160 | success absorbs exactly the decoded postings and returns the cursor; a well-formed page fails exactly when a posting repeats, a SKU bound or a true 64-bit total is exceeded, with that error |
| PostingSales.Accumulator.Finish | src/ozon_posting_sales.rs:202-241 | fails exactly when a grand total exceeds 64 bits, so the per-row overflow branches are unreachable; otherwise returns the declarative report |
| PostingSales.LineStep | src/ozon_posting_sales.rs:162-199 | row buckets, status entries and totals stay the declarative sums over the absorbed lines, and no row or status exceeds its total |
| PostingSales.UnitsByShipment | src/ozon_posting_sales.rs:154-156 | every declarative sum is the sum over shipments of their own units |
| PostingSales.ReportIsOrderFree | src/ozon_posting_sales.rs:202-241 | two page splits or orders of the same postings that both succeed give equal totals and equal rows |
| PostingSales.TotalsAreRowSums | src/ozon_posting_sales.rs:175-192 | each total bucket is the sum of that bucket over the report rows |
| PostingSales.StatusUnitsAddUp | src/ozon_posting_sales.rs:193-198 | the status units of a row add up to its cancelled plus its other units |
| PostingSales.RowsInFields | src/ozon_posting_sales.rs:215-238 | each of the six unit figures of a row is the sum over the products of the shipments with that SKU, scheme and outcome |
| PostingSales.StatusesInFields | src/ozon_posting_sales.rs:193-198 | a status entry exists exactly when units have that status, and is their sum |
| PostingSales.TotalsInFields | src/ozon_posting_sales.rs:202-214 | each total is the sum over the products of the shipments it is named after, and the posting counts count shipments |
| PostingSales.IncreasingIsDetermined | src/ozon_posting_sales.rs:217-239 | strictly ascending SKU lists with the same elements are equal, so the row order is determined |
| OzonPacing.RateLimiter.TryClaimFor | src/ozon.rs:314-339 | a claim succeeds exactly when every gate of its endpoint is open at the stamp; a refusal changes nothing and names the first instant at which it would succeed |
| OzonPacing.RateLimiter.RecordAnalyticsRateLimit | src/ozon.rs:359-378 | the enforced delay is the vendor's, kept within 65 s and an hour whatever the strikes, or without one 2, 4, 8, 16, 32 and then 60 minutes by strikes; the analytics gate is raised to its end and the strikes counted |
| OzonPacing.RateLimiter.ClearAnalyticsRateLimit | src/ozon.rs:380-383 | a success makes the next delay without a header two minutes again |
| OzonPacing.CooldownInNumbers | src/ozon.rs:359-378 | the adaptive delay in numbers for every strike count and every vendor delay |
| OzonPacing.PlannedDelayFollowsMisses | src/ozon.rs:359-383 | in any run the planned delay is the bounded vendor delay, or is given by the 429s of that Client-Id in a row since its last success |
| OzonPacing.RateLimiter.ExtendCooldown | src/ozon.rs:348-357 | raises the general gate to the end of the delay and never lowers it |
| OzonPacing.CooldownDoubles | src/ozon.rs:359-378 | without a vendor header each further 429 in a row doubles the delay, up to an hour |
| OzonPacing.BuildLimiters | src/ozon.rs:512-521 | two stores share a limiter exactly when they share the Client-Id |
| OzonPacing.GatesOnlyAdvance | src/ozon.rs:314-378 | over any run no gate of any limiter is ever earlier than after any prefix of that run |
| OzonPacing.DeparturesAreSpaced | src/ozon.rs:314-339 | under any interleaving, departures of one Client-Id have stamps at least 20 ms apart, and 65 s apart on the analytics path and, separately, on the search path |
| OzonPacing.CooldownsHold | src/ozon.rs:348-378 | once a cooldown until t is installed, no departure decided later through that gate has a stamp before t |
| OzonPacing.AnalyticsCooldownHolds | src/ozon.rs:359-378 | told from the steps of a run: after a 429 planned at t and installed by that caller's next step, whatever others do in between, every analytics departure of that Client-Id decided later has a stamp of at least t plus the vendor's delay kept within 65 s and an hour, and at least t plus 120 s without one |
| OzonPacing.PermitsAreConserved | src/ozon.rs:702-740 | free plus held permits equal 32 globally and 16 per Client-Id in every reachable state, and a caller that sleeps, is refused or is back at the readiness check holds none |
| OzonPacing.AdmissionTakesBothAndOneDeparture | src/ozon.rs:702-740 | an admitted caller holds both permits and has consumed exactly one departure |
| OzonPacing.ClaimsSucceedExactlyWhenFree | src/ozon.rs:314-339 | a claim succeeds exactly when its stamp is past the limiter's creation and past what every recorded departure and cooldown of that Client-Id demands on its gates: nothing else holds a caller back |
| OzonPacing.ReadinessDecides | src/ozon.rs:702-740 | the readiness check goes on exactly when both gates are open, refuses exactly a paced caller that does not queue, and otherwise sleeps exactly until both are |
| OzonPacing.OverloadExactlyWhenFull | src/ozon.rs:702-740 | local overload is reported exactly when all 32 global or all 16 client permits are out |
| OzonRetry.VendorDelayIsShared | src/ozon/attempt.rs:28-101 | a vendor delay (the analytics 429 apart) is slept exactly when an attempt is left, the path is not search, the delay is within the limit and no quota failure came first, and then verbatim; a slept delay is the one installed for its Client-Id exactly off the analytics path; an installed delay is slept exactly with an attempt left off the search path |
| OzonRetry.AnalyticsDelayIsNotShared | src/ozon/attempt.rs:80-87 | on the analytics path a 503 with a two-second delay is slept by its caller and installed for nobody |
| OzonRetry.SearchDelayIsNotSlept | src/ozon/attempt.rs:28-30 | on the search path a 429 with a two-second delay is installed for its Client-Id and not slept by its caller |
| OzonRetry.SucceedsExactlyOnDecoded2xx | src/ozon.rs:806-826 | an attempt succeeds exactly on an answered 2xx reply without quota failure whose body decodes, with that value |
| OzonRetry.FailsWithOwnError | src/ozon.rs:890-917 | every failure carries its own error: the admission's, the quota's, the body's, or the reply's request-id with the kind of its status |
| OzonRetry.SleepsExactlyWhenPlanned | src/ozon/attempt.rs:28-142 | when and how long an attempt plans to sleep, for every reply: two attempts, never on search; 100 then 200 ms, the vendor's delay up to 5 s, or the later of two delays up to 600 s for a queued analytics 429 |
| OzonRetry.PostWithinDeadline | src/ozon.rs:644-699 | at most three attempts, and one on the search path; every planned sleep is within its budget; a deadline, local overload or transport failure after a planned retry returns the last planned error with a request-id, else the first one, and every other end is returned unchanged |
| OzonRetry.EndIsDetermined | src/ozon.rs:644-699 | that specification has one solution: replies and deadline determine the attempts, the planned errors and the result |
| PerformancePacing.PerformanceRequestPacer.TryClaimRequestSlot | src/ozon_performance.rs:346-354 | a read claim succeeds exactly at or after the boundary, and then records exactly its own departure and sets the boundary to its end; a refusal changes nothing; the spacing is kept |
| PerformancePacing.PerformanceRequestPacer.ReserveWrite | src/ozon_performance.rs:358-369 | the computed sleep is long enough: when the reservation returns, the boundary it found is behind the clock and the spacing is kept |
| PerformancePacing.PerformanceRequestPacer.MarkRequestStarted | src/ozon_performance.rs:386-388 | marking a boundary that is due records a departure that keeps the distance from every earlier one |
| PerformancePacing.PerformanceRequestPacer.WriteGuarded | src/control/ozon/client.rs:479-486 | a guarded write departs after everything before it is due, or is refused and departs nowhere; either way the spacing holds and the boundary does not move back |
| PerformancePacing.StartsAreSpaced | src/ozon_performance.rs:346-388 | in any interleaving with one mark per guard, every request start is at least every earlier start's interval later, and so is the boundary |
| PerformancePacing.BoundaryNeverRetreats | src/ozon_performance.rs:346-388 | with one mark per guard the boundary never moves backwards over a run |
| PerformancePacing.RetreatsExactlyOnEarlierRemark | src/ozon_performance.rs:386-388 | without that rule, the boundary moves back exactly on a second mark that ends before the first |
| PerformancePacing.RemarkIsHarmlessExactlyWhenDue | src/ozon_performance.rs:386-388 | a second mark keeps the spacing exactly when the first interval is already over |
| PerformancePacing.GuardExcludesEverybodyElse | src/ozon_performance.rs:356-388 | while a write guard is alive nobody else departs, and the guard itself at most once |
| PerformancePacing.ClaimsDepartExactlyWhenDue | src/ozon_performance.rs:346-354 | in the interleaved machine a claim departs, with its own start and boundary, exactly when its stamp is at or past the boundary |
| JsonRpcEnvelope.ReadError | src/http.rs:613-687 | the error-object reader accepts exactly the well-formed error objects |
| JsonRpcEnvelope.JsonRpcEnvelopeShape.RequiresResponsePermit | src/http.rs:805-825 | the flags decide exactly whether what was read is a notification or a client response |
| JsonRpcEnvelope.RejectedMember | src/http.rs:758-803 | a repeated or ill-typed member rules out both forms whatever follows it, so stopping early is right |
| JsonRpcEnvelope.PostRequiresResponsePermit | src/http.rs:858-867 | the permit is bypassed exactly for a well-formed notification or client response, for every member list in any order and with duplicates |
| JsonRpcEnvelope.AnswerIsOrderFree | src/http.rs:758-825 | permuting the members of the envelope and of its error object never changes the answer |
| HttpAdmission.StepFollows | src/http.rs:1023-1111 | what every step does to each semaphore and to each request's account of permits taken and returned |
| HttpAdmission.PermitsAreConserved | src/http.rs:320-341 | each of the three semaphores conserves its permits in every reachable state |
| HttpAdmission.ReturnedExactlyOnce | src/http.rs:240-263 | a request that is over, by refusal, end of body, body error, early return or disconnect, has returned each permit it took exactly once |
| HttpAdmission.NotificationReachesHandler | src/http/request.rs:8-26 | while fewer than 32 requests are in the ingress phase a well-formed notification reaches the handler, however many response bodies are unread |
| HttpAdmission.OnlyFullIngressRejects | src/http.rs:1060-1090 | in any run, a POST that bypasses the response permit is refused for capacity only because 32 requests held the ingress phase when it tried to enter |
| HttpAdmission.EnterAdmitsExactlyWhenItCan | src/http.rs:1060-1068 | a request enters exactly when fewer than 32 requests, or 64 streams, hold a permit |
| HttpAdmission.ReadBodyAdmitsExactlyWhenItCan | src/http/request.rs:8-26 | a readable POST that needs a response is handled with a response permit exactly when fewer than 16 are held, and refused otherwise; one that needs none is handled |
| HttpAdmission.ResponseCarriesItsPermit | src/http.rs:1105-1110 | a handled POST with a response permit hands its body out together with it |
| HttpAdmission.OnlyEventStreamsKeepTheirPermit | src/http.rs:1070-1088 | a GET keeps its stream permit through an event stream and returns it at once with any other answer |
| HttpAdmission.PermitsAreHeldThrough | src/http.rs:240-263 | over any run a permit leaves a request only by that request's own end of body, body error, disconnect, or an end before the body is handed out |
| AccessRegistry.ValidateOzonAccount | src/config.rs:410-470 | accepts exactly well-formed settings whose store id is new and is not another account's selector |
| AccessRegistry.ValidateWildberriesAccount | src/config.rs:472-495 | accepts exactly well-formed settings of a Wildberries account |
| AccessRegistry.ValidateAccounts | src/config.rs:344-408 | the walk with its selector map and three sets accepts exactly the sound account lists |
| AccessRegistry.ValidateOidcIdentities | src/config/oidc_actor.rs:23-58 | accepts exactly the actor lists with usable identities whose subjects, usernames and e-mails are each unique |
| AccessRegistry.Validate | src/config.rs:310-331 | accepts exactly the sound registries |
| AccessRegistry.UnambiguousExactlyWhenAccepted | src/config.rs:456-468 | with unique account ids the selector checks hold exactly when every selector names one account, clashes with Wildberries account ids included |
| AccessRegistry.SelectorLookupIsOrderFree | src/config.rs:529-536 | in a sound registry a selector finds the same account for every ordering of the accounts |
| AccessRegistry.AcceptanceIsOrderFree | src/config.rs:310-331 | reordering the accounts of an accepted registry gives an accepted registry |
| AccessRegistry.SubjectLookupIsExact | src/config/oidc_actor.rs:6-21 | with unique subjects the lookup is never ambiguous and finds exactly the actor with that subject |
| RegistryCache.NewRegistrySource | src/config.rs:766-783 | startup fails exactly when the first read, decode or validation fails, and otherwise fixes the credential bindings |
| RegistryCache.RegistrySource.Load | src/config.rs:791-817 | a load through the cache answers what an uncached decode, validate and compare answers, and only a success replaces the cache |
| RegistryCache.RegistrySource.RequireJwtOidcBindings | src/config.rs:821-828 | the JWT switch is set exactly when an uncached load succeeds and its registry meets the contract, and each failure is the one that stopped it |
| RegistryCache.SnapshotsAgreeExactlyOnCredentials | src/config.rs:559-605 | two registries have equal credential bindings exactly when their accounts agree on every credential field |
| RegistryCache.UncachedSucceedsExactly | src/config.rs:791-817 | a load succeeds exactly when its bytes decode to a sound registry with the startup credentials that meets the JWT contract where required |
| RegistryCache.ReadsUpToOneMebibyte | src/config.rs:175-190 | a file is read exactly when it can be opened and holds at most one mebibyte |
| RegistryCache.CacheIsTransparent | src/config.rs:791-817 | under concurrent loads and edits every outcome equals the uncached one for the bytes that load read, the startup bindings and the switch it saw |
| RegistryCache.LoadedIsSound | src/config.rs:791-817 | whatever a load returns is sound, is what its own bytes decode to, and asks for the startup credentials |
| RegistryCache.SwitchBindsLaterChecks | src/config.rs:821-838 | once the switch was on, every load that checks it later returns only registries that meet the JWT contract |
| RegistryCache.SuccessChecksTheSwitch | src/config.rs:795-800 | no load succeeds without having checked the switch |
| LcovMerge.SplitJoined | scripts/sonar-lcov-normalize.py:33-69 | splitting into lines undoes joining with newlines |
| LcovMerge.IntRoundTrip | scripts/sonar-lcov-normalize.py:43-64 | a printed number is plain text that reads back as the same number |
| Decimal.NumeralsAreDigitStrings | src/ozon_posting_sales.rs:306-312 | the digit strings of value n are exactly the printed n behind any number of zeros |
| LcovMerge.Merge | scripts/sonar-lcov-normalize.py:28-53 | the loop over the report text computes the specified walk, `ValueError` included |
| LcovMerge.WalkAddsUp | scripts/sonar-lcov-normalize.py:33-53 | the walk fails exactly on a malformed line inside a record; otherwise it has exactly the files named and the counters mentioned, each at the sum of the hits on the lines its file owns |
| LcovMerge.DashCountsZero | scripts/sonar-lcov-normalize.py:45-48 | a branch taken "-" counts zero |
| LcovMerge.ChecksumIsIgnored | scripts/sonar-lcov-normalize.py:41-43 | what follows the hits on a DA line is ignored |
| LcovMerge.MergeAddsUp | scripts/sonar-lcov-normalize.py:28-53 | merging a complete report followed by another is the pointwise sum of merging each, failures included |
| LcovMerge.Render | scripts/sonar-lcov-normalize.py:56-69 | the loops produce the specified text: records in ascending order of file names, and in each record branches and lines in ascending order of their keys, each listed exactly once |
| LcovMerge.SortedIsSorted | scripts/sonar-lcov-normalize.py:58-66 | sorting lists every key exactly once, in strictly ascending order |
| LcovMerge.SummariesAreTrue | scripts/sonar-lcov-normalize.py:66-68 | a rendered record ends with the number of its DA lines, the number of those with hits and the end mark |
| LcovMerge.BranchSummariesAreTrue | scripts/sonar-lcov-normalize.py:61-63 | the BRDA lines of a rendered record are followed by their number and the number of those taken |
| LcovMerge.RenderRoundTrip | scripts/sonar-lcov-normalize.py:28-69 | merging a rendered report gives back the same line and branch maps of every file |
| LcovMerge.MergeRenderMerge | scripts/sonar-lcov-normalize.py:28-69 | for every report that merges, merging its rendering gives the same result again |

## Left out

- JwksCache.FetchRateIsBounded: counts recorded fetches, so a call cancelled in the middle of a fetch is not counted; it needs a TTL of at least 5 s, and the configuration (src/config.rs:1140) demands 30 s.
- JWKS bodies: size, string and key-count bounds and JSON decoding; a fetch yields a key set or fails.
- RouteJournal.World.DeleteRoute: nobody else changes that one host route between the readback and the delete that follows it; any other route may change at any time.
- RouteJournal.Run.MakePlan: host names are a parameter, addresses are listed in no particular order, and what makes an address public IPv4 is a parameter.
- RouteJournal.Run.Reconcile: the reason of a failure is not reported, only that the run failed; progress with every command working is stated for rollback only.
- File ownership and permission checks of the route tool, its `plan` and `check` modes and its HTTPS probes.
- PostingSales.Accumulator.AbsorbPage: an accumulator that has refused a page may be half updated, as in the source, and nothing is claimed about it; which of several faults of a malformed page is reported is not specified.
- The posting page request bodies and endpoint names.
- OzonPacing.CooldownsHold: speaks of decisions after the cooldown is installed under its lock, since a claim samples its clock before taking the lock.
- The persisted shared quota, the analytics response cache, endpoint allowlists and header parsing of the Ozon client.
- OzonRetry.PostWithinDeadline: the missing-credentials exit before the loop and the checkpoint client that owns its own retries.
- PerformancePacing.StartsAreSpaced: is about one credential scope; the Performance permits, token exchange and cooldowns repeat the permit law of `OzonPacing`.
- JSON text: the classifier starts from a list of members with their values, and `None` stands for a body that is not one JSON value.
- HttpAdmission.PermitsAreConserved: covers the request, response and stream semaphores; header checks, authentication with its two semaphores and session ownership come before them and are not modelled.
- HttpAdmission.NotificationReachesHandler: assumes its body is read within the limit and timeout.
- AccessRegistry.Validate: answers acceptance, not which message is given.
- RegistryCache.CacheIsTransparent: JSON decoding is a parameter, a read may find any bytes, and the semaphore that bounds background loads is not modelled.
- LcovMerge.IntRoundTrip: non-ASCII digits and the length limit of Python's number conversion are not modelled.
- LcovMerge.RenderRoundTrip: path resolution is a parameter; names must resolve to themselves, and names and branch fields must have no line break and no comma where the format has none, which `MergeRenderMerge` shows for every merge result.
- Wildberries and reporting modules, the control plane, deployment, recovery and Sonar conversion scripts.
