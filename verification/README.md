# HashInsight core, modelled and proved in Dafny

This project models the parts of a Bitcoin-mining analytics platform whose behaviour is hardest to
see from reading one function at a time, and proves what they promise:

- **The request coalescer** (`Coalescer.dfy`, `RequestCoalescer.dfy`, `SingleFlight.dfy`): a
  single-flight protocol over four tables under one lock.  `Coalescer` is a state machine whose
  actions are the lock-held blocks and the returns of `event.wait`, for any number of calls and keys
  and every interleaving.  The class `RequestCoalescer` holds the tables; each of its methods runs
  one block and is proved to take exactly the machine's step and to keep the invariant.
  `SingleFlight` proves what holds in every run, and what holds in *tidy* runs.
- **The caches** (`MemoryCache.dfy`, `CacheManager.dfy`, `Fleet.dfy`, `Cached.dfy`, `Memoised.dfy`):
  lazy expiry, two-level lookup with backfill, many processes in front of one shared level, and the
  two caching decorators, the second one composed with the coalescer machine.
- **Payments** (`Payments.dfy`, `PaymentLifecycle.dfy`, `OverlappingRequests.dfy`): status checks,
  webhooks and cancellations as sessions that load rows and commit changed columns; what holds when
  they run one at a time, and exactly when it survives overlapping.
- **Money and data** (`HostingAnalytics.dfy`, `BatchCalculator.dfy`, `HistoricalData.dfy`) and the
  **translation cache** (`LanguageEngine.dfy`).

Numbers are exact integers and reals, times are reals.  The clock, the answers of the chain, of the
database and of the shared cache are parameters of the operations that meet them.

## What the code keeps, and what it does not

A run of the coalescer is *tidy* if no timed-out waiter, the last of its key, leaves while the
primary still runs, and no new primary enters a key while an earlier one has published but not run
its `finally`.  The model follows the code where the code and its own words differ:

- The class comment (cache_manager.py:652-661) says that concurrent requests run the function once.
  In tidy runs they do.  In others they need not: `LateFinishBreaksSingleFlight` needs no timeout at
  all, `TimeoutBreaksSingleFlight` one.  `TidyIffSafe` is the exact condition: a step of a tidy run
  can lead, tidily, to two running functions if and only if it is untidy.
- A waiter may be handed another primary's outcome (`WaiterMayGetForeignOutcome`), and again the
  untidy steps are exactly those that can lead to it (`TidyIffOwnSafe`): both the early release and
  the late `finally` do.
- In every run, timeouts and overlapping generations included, the reference count is exact, no
  result is lost, nothing is left behind, and the calls inside can always drain.
- A key can be held with no function running and no waiter left: by a primary that published, was
  never waited on, and has not finished.  The characterisation of held keys says so.  A primary whose
  waiters drained the key before its `finally` holds nothing.
- The lifetime given to `set` does not bound staleness.  A copy from the shared level gets a lifetime
  of its own; the bound is the sum of both (`StalenessBound`), and it is attained.
- `delete` on a manager returns False when its memory level lacks the key, although the shared entry
  is erased.
- A set, delete or clear need not stick.  The manager may report an older value again exactly if the
  shared level did not carry it out, because it failed to answer or was asked to store None, and still
  holds a live entry of another value (`SticksIffHarmless`).  If the manager leaves the key alone
  afterwards, that entry also has to outlive what its memory stored (`LastsIffNotOutlived`).
- Transparency of `coalesced_cached`, and of the translation cache, is equivalent to the joined or
  hashed key determining the result; both equivalences are proved.  An underscore is enough to break
  the translation cache (`UnderscoreIsNoticed`).
- Hosting fees are charged once per settlement, so net profits of adjacent periods add up exactly
  when the fees are zero.
- No row is locked and no version checked, so requests that overlap can do harm: two webhooks can
  complete a payment twice and move the dates of its subscription twice, and a stale status check can
  reopen a completed payment.  The exact condition is that no commit is *late*: none changes the
  status of a payment that has been completed since the request loaded it.  That is the guard of
  `check_payment_status` and of `process_confirmed_payment`, asked again at the commit.  The shipped
  server (gunicorn.conf.py:12-13) serves one of the modelled requests at a time in one process.
- Without a late commit an activation can still be lost: a column that was loaded with the value it is
  to get is not written, so a cancellation committed in between survives
  (`ActivationLostToCancellation`).  `ActivationWrites` says exactly which columns an activation sets.
- COMPLETED, FAILED and CANCELLED are final for requests one at a time, and no other status is: a refunded
  payment whose coins still lie at its address is reopened by the next status check (`FinalStatuses`).
- A payment in CONFIRMING is still completable after a status check exactly if it is not expired then
  and has a required number of confirmations; a cancelled subscription stays cancelled exactly until
  a payment of it is completed; USDC is never checked.
- Whatever billing cycle was chosen and paid for, `create_payment` stores the name of the coin where
  `process_confirmed_payment` looks for "monthly", so every payment it creates buys 365 days.

## Model

| member | source | states |
|---|---|---|
| RequestCoalescing.RequestCoalescer.constructor | cache_manager.py:663-668 | all tables start empty, which satisfies the protocol invariant |
| RequestCoalescing.RequestCoalescer.EnterCall | cache_manager.py:688-702 | the admission block is the machine's `Enter` and keeps the invariant; the call is the primary exactly if the key was free |
| RequestCoalescing.RequestCoalescer.StoreAndNotify | cache_manager.py:711-713 | publishing an outcome, value or exception, is the machine's `Publish` and keeps the invariant |
| RequestCoalescing.RequestCoalescer.FinishPrimary | cache_manager.py:722-731 | the `finally` block is the machine's `Finish` and keeps the invariant |
| RequestCoalescing.RequestCoalescer.LeaveAfterTimeout | cache_manager.py:738-747 | a timed-out waiter's block is the machine's `LeaveTimedOut` and keeps the invariant |
| RequestCoalescing.RequestCoalescer.ReadAndLeave | cache_manager.py:750-768 | the reading block is the machine's `Read`, keeps the invariant, and always finds a result, the stored one |
| Coalescer.StepInv | cache_manager.py:688-768 | every action of every call, timeouts and overlapping generations included, keeps the invariant |
| SingleFlight.ReferenceCountIsExact | cache_manager.py:688-702 | in every reachable state the three tables share one key set, the count is the number of joined calls, all of them hold the registered event, and that event is set or its primary is running |
| SingleFlight.ReadAgrees | cache_manager.py:750-757 | a waiter about to read finds a result, published for its key no earlier than its own primary's |
| SingleFlight.ResultNeverLost | cache_manager.py:762-763 | in every run no waiter ends with "Result lost", and a set registered event has its result stored |
| SingleFlight.OutcomeAgreement | cache_manager.py:706-721 | in every run a waiter's outcome was published for its key no earlier than its own primary's, and every publication is its primary's own outcome |
| SingleFlight.NoLeak | cache_manager.py:722-759 | when no call is inside for a key, none of the four tables mentions it |
| SingleFlight.RunShrinksWork | cache_manager.py:704-768 | while nobody enters, the remaining work falls by one with each step, so every such run is bounded |
| SingleFlight.NoDeadlock | cache_manager.py:704-768 | while a call is inside, some call can step without a timeout |
| SingleFlight.Drain | cache_manager.py:722-759 | from every invariant state the calls inside can all leave without a timeout, in exactly as many steps as there is work, and then all tables are empty |
| SingleFlight.UndisturbedCall | tests/test_request_coalescing.py:25-37 | a call on a free key that nobody disturbs runs its own function, returns its outcome and leaves the tables free for the next |
| SingleFlight.ExclusiveIffTidy | cache_manager.py:688-747 | a step keeps "one primary per key, holding it under its own event, with its own result" if and only if it is tidy |
| SingleFlight.HeldExactly | cache_manager.py:722-759 | the key is held exactly if waiters are joined, its function runs, or a primary nobody waited on has not finished |
| SingleFlight.SingleFlightInTidyRuns | cache_manager.py:648-661 | in every tidy run at most one function runs per key, whoever gets an outcome gets its own primary's, and keys are held exactly as above |
| SingleFlight.EarlyReleaseUnsafe | cache_manager.py:741-746 | a last timed-out waiter that releases a running primary's key always opens the way to a second running function |
| SingleFlight.LateFinishUnsafe | cache_manager.py:725-731 | a primary entering before the previous one's `finally` always opens the way to a second running function |
| SingleFlight.TidyIffSafe | cache_manager.py:688-747 | after any tidy run, the next step is tidy if and only if no tidy continuation has two functions running for a key |
| SingleFlight.TidyIffOwnSafe | cache_manager.py:688-768 | after any tidy run, the next step is tidy if and only if in no tidy continuation does anybody get an outcome other than its own primary's |
| SingleFlight.LateFinishBreaksSingleFlight | cache_manager.py:725-731 | for every key a run without timeouts in which two functions run at once |
| SingleFlight.TimeoutBreaksSingleFlight | cache_manager.py:739-747 | for every key a run with one timeout in which two functions run at once |
| SingleFlight.WaiterMayGetForeignOutcome | cache_manager.py:739-757 | a run in which a waiter returns any chosen outcome of an abandoned primary instead of its own primary's |
| MemoryCache.MemoryCacheBackend.Get | cache_manager.py:190-199 | reports the live value and drops an entry it finds expired, nothing else |
| MemoryCache.MemoryCacheBackend.Set | cache_manager.py:201-208 | replaces one entry; no or zero lifetime selects the default |
| MemoryCache.MemoryCacheBackend.Delete | cache_manager.py:210-215 | removes the entry and tells whether there was one |
| MemoryCache.MemoryCacheBackend.Clear | cache_manager.py:217-228 | removes exactly the matching keys and counts them |
| MemoryCache.MemoryCacheBackend.Exists | cache_manager.py:230-237 | tells whether a live entry is there, and drops it if expired |
| MemoryCache.MemoryCacheBackend.Cleanup | cache_manager.py:246-260 | removes exactly the expired entries and counts them |
| MemoryCache.StarsAreDropped | cache_manager.py:217-228 | a pattern with a star in it matches exactly the keys that contain what is left without the star, so the star does not stand for anything |
| MemoryCache.OnlyStarsMatchAll | cache_manager.py:217-228 | and a pattern of stars alone, or an empty one, matches every key |
| MemoryCache.LazyExpiryRefinesTimedMap | cache_manager.py:190-260 | after any run on a monotone clock a lookup reports exactly what the last `set` not followed by a `delete` or `clear` dictates at that time |
| MemoryCache.ReadsAreInvisible | cache_manager.py:190-260 | removing every `get`, `exists` and `cleanup` from a run changes no later lookup |
| CacheManager.FirstMatchIsFirst | cache_manager.py:461-471 | the configured lifetime is that of the first pattern occurring in the key, if any |
| CacheManager.GetTtlForKey | cache_manager.py:461-471 | the search loop returns what the table says: the lifetime of the first pattern occurring in the key, else the "default" entry, else 300 |
| CacheManager.CopyLastsAsTableSays | cache_manager.py:391-395 | a lookup answered by the shared level leaves a copy that memory reports exactly as long as the table of lifetimes says for the key |
| CacheManager.StoredIsReported | cache_manager.py:403-428 | what `set` stores, both levels report for exactly the lifetime given, or else the table's, and no other key is touched |
| CacheManager.RedisCacheBackend.Set | cache_manager.py:99-117 | succeeds exactly if the server answers, the value is not None and the lifetime not negative; then every later lookup of the key reports the value until its lifetime is over, or for ever if that is zero; every other lookup, and all of them after a failure, report what they did |
| CacheManager.RedisCacheBackend.Delete | cache_manager.py:119-130 | removes the key if the server answers and reports success even if it was absent |
| CacheManager.EnhancedCacheManager.Get | cache_manager.py:364-401 | memory first, then the shared level; a value found there is reported by memory for exactly as long as the table says; hits split exactly into the two levels' |
| CacheManager.EnhancedCacheManager.Set | cache_manager.py:403-428 | both levels report the value for exactly the lifetime given, or else the table's; succeeds exactly if every level present accepts |
| CacheManager.EnhancedCacheManager.Delete | cache_manager.py:430-446 | erases both levels; reports success exactly if memory had the key and the shared level answered |
| CacheManager.EnhancedCacheManager.ClearAll | cache_manager.py:448-459 | `clear('*')` empties every level that answers and counts all memory entries and the unexpired shared ones |
| Fleet.StalenessBound | cache_manager.py:373-401 | over any run of any number of managers with their own configurations, shared level answering or not, a hit at t returns what some `set` at s, asking for a lifetime T, stored, and s <= t < s + T + what the reading manager's table says for the key |
| Fleet.StalenessBoundIsTight | cache_manager.py:391-395 | for every table of the reader and every time below that bound, two managers have a run with such a hit |
| Fleet.SticksIffHarmless | cache_manager.py:403-459 | after any run and any set, delete or clear of a key, its manager never again reports an older value, however the run goes on, if and only if the shared level carried it out or holds no live entry of another value |
| Fleet.LastsIffNotOutlived | cache_manager.py:403-459 | the same while the manager leaves the key alone, if and only if the shared level carried it out or holds no entry of another value that outlives what the manager's memory stored |
| Fleet.Convergence | cache_manager.py:403-446 | after an override at u that sticks, from u plus the largest lifetime used or configured for the key no manager reports an older value either |
| Fleet.MissedDeleteIsUndone | cache_manager.py:430-446 | a delete the shared level misses right after a `set` is undone |
| Fleet.NoneDoesNotOverride | cache_manager.py:99-117 | setting None right after a `set` overrides nothing |
| Fleet.MissedSetLastsIffLonger | cache_manager.py:411-428 | a set of another value that the shared level misses lasts if and only if its lifetime is not the shorter one |
| Cached.CallCached | cache_manager.py:562-582 | whatever levels the manager has, a cached call ends as the plain function does and keeps both levels faithful; after a miss the value is reported by memory, and by the shared level if it answered, for exactly the lifetime asked for; a hit leaves the shared level alone |
| Cached.FreshIffUseful | cache_manager.py:570-580 | with memory, with a shared level that loses nothing, or with both: within one lifetime of the last execution's start the key is a hit if and only if that execution neither raised nor returned None |
| Cached.RecomputationRate | cache_manager.py:562-582 | for the same managers, n executions for a key whose starts lie in a window of length W satisfy (n - 1) * ttl <= W if all but the last neither raised nor returned None |
| Memoised.MemoisedAgreesWithPlain | cache_manager.py:942-965 | if keys determine outcomes, every finished request of every interleaving got the plain outcome or timed out, even if the caches lose or copy entries at any moment |
| Memoised.CollisionGoesWrong | cache_manager.py:945-948 | two calls that share a key and differ in outcome have an interleaving in which one gets the other's |
| Memoised.RightIffKeysDetermine | cache_manager.py:942-965 | agreement with the plain function in all runs holds if and only if keys determine outcomes on the calls made |
| Memoised.StoredIsHit | cache_manager.py:950-960 | in any run, from the moment a request has stored a value and while nothing stores or disturbs its key, a lookup is a hit on it in memory for exactly the lifetime asked for, and with memory alone a miss from then on |
| Memoised.StoredIsShared | cache_manager.py:950-960 | the same of a shared level that answered the store, whatever becomes of memory |
| Memoised.PublishedIsStored | cache_manager.py:957-963 | in every run a value that the coalescer hands to waiters has been stored before |
| HostingAnalytics.CalculateDeviceRevenue | hosting_analytics.py:102-135 | the index loop computes the step integral of the hourly earning |
| HostingAnalytics.WholeNetworkEarnsEveryBlock | hosting_analytics.py:116-133 | a device with the hashrate of the whole network earns six blocks of 3.125 coins an hour at the price of the earlier sample |
| HostingAnalytics.DeviceEarnsItsShare | hosting_analytics.py:125-133 | any device earns its share of the network's hashrate of that |
| HostingAnalytics.NoNetworkNoEarning | hosting_analytics.py:121-121 | without a positive difficulty or network hashrate it earns nothing |
| HostingAnalytics.RevenueSplits | hosting_analytics.py:102-135 | revenue is the sum over two stretches that share the split sample |
| HostingAnalytics.RevenueRefines | hosting_analytics.py:108-133 | inserting a sample that repeats its left neighbour's values changes no revenue |
| HostingAnalytics.RevenueIsLinear | hosting_analytics.py:125-133 | revenue of a linear combination of hashrates is that combination of the revenues |
| HostingAnalytics.RevenueIsBounded | hosting_analytics.py:102-135 | over time-ordered samples, revenue lies between 0 and the best hourly earning times the total hours |
| HostingAnalytics.CalculateClientSettlement | hosting_analytics.py:19-100 | the settlement's totals over period and devices, and each refusal: no market data, no devices, last price zero |
| HostingAnalytics.RefusedIff | hosting_analytics.py:38-83 | which settlements are refused: exactly those without a sample in the period, else without a device hosted by its end, else with a last price of zero |
| HostingAnalytics.FirstDevice | hosting_analytics.py:59-94 | the settlement of a single device: its revenue, its fee, its power at 0.055 a kilowatt-hour over the period, and the difference |
| HostingAnalytics.OneMoreDevice | hosting_analytics.py:59-94 | what each further hosted device adds to revenue, fees, electricity, net profit and count |
| HostingAnalytics.UnhostedDoesNotCount | hosting_analytics.py:42-46 | a device hosted only after the end of the period changes no settlement |
| HostingAnalytics.PricesOfSettlement | hosting_analytics.py:83-85 | the coins mined are worth the revenue at the last price, and the average price times the samples is the sum of the prices |
| HostingAnalytics.BetweenJoins | hosting_analytics.py:29-36 | two periods that meet at a sample share exactly that sample, and join to the rows of the whole period |
| HostingAnalytics.AdjacentPeriods | hosting_analytics.py:55-94 | over adjacent periods revenue and electricity add up, net differs by the fees once, so it adds up exactly if the fees are zero |
| BatchCalculator.GroupMiners | batch_calculator_routes.py:244-269 | the grouping loop yields the keys in order of first appearance, and for exactly those keys the sum of their quantities and the in-order list of their non-empty numbers |
| BatchCalculator.KeysAreDistinct | batch_calculator_routes.py:263-266 | no key is listed twice |
| BatchCalculator.KeysAreTheKeys | batch_calculator_routes.py:250-266 | the keys are exactly those of the entries |
| BatchCalculator.QuantitiesAreConserved | batch_calculator_routes.py:267-267 | the group quantities sum to the quantities given |
| BatchCalculator.KeysKeepOrder | batch_calculator_routes.py:263-266 | further entries add groups behind the ones there are and reorder none |
| BatchCalculator.GroupOfConcat | batch_calculator_routes.py:262-269 | quantity and numbers of a group over two lists are those of the first and then those of the second |
| BatchCalculator.Accumulate | batch_calculator_routes.py:317-402 | the accumulation loop yields one result per group that does not fail, and the grouped total |
| BatchCalculator.ResultsAddUp | batch_calculator_routes.py:372-398 | the displayed results add up to the totals and name exactly the groups that did not fail, each once |
| BatchCalculator.ResultsShow | batch_calculator_routes.py:353-390 | each result shows its group's quantity and numbers, the price times that quantity, and what the calculation gave for it |
| BatchCalculator.TotalsAreColumnSums | batch_calculator_routes.py:372-398 | the total profit, revenue and cost are each the sum of their own column of the results |
| BatchCalculator.GroupedEqualsPerEntry | batch_calculator_routes.py:244-402 | for a calculation additive in quantity and failing by key alone, grouping gives the per-entry total, for every list |
| BatchCalculator.OrderIsIrrelevant | batch_calculator_routes.py:244-402 | and reordering the entries changes no grouped total |
| LanguageEngine.LanguageEngine.SetLanguage | language_engine.py:44-55 | an unsupported language selects the default; the cache is emptied exactly if the language changed |
| LanguageEngine.LanguageEngine.ClearCache | language_engine.py:256-260 | empties the cache |
| LanguageEngine.LanguageEngine.Translate | language_engine.py:61-106 | answers as the cached run dictates, remembers a text without keyword arguments and no other, and while all queries had no underscore in language and context answers from the dictionary of the language, else of the default one |
| LanguageEngine.PlainFallsBack | language_engine.py:82-90 | the plain lookup answers in the language asked for, else in the default language, else with the key |
| LanguageEngine.TargetPrefersGiven | language_engine.py:74-74 | an explicit language wins over the current one unless it is empty |
| LanguageEngine.CacheKeyDetermines | language_engine.py:77-77 | without underscores in language and context the joined key determines key, language and context |
| LanguageEngine.NeverNoticedIffKeysSuffice | language_engine.py:77-104 | over all runs the cache goes unnoticed if and only if queries with one joined key have one translation |
| LanguageEngine.TameQueriesNeverNoticed | language_engine.py:77-104 | underscore-free languages and contexts suffice for every dictionary and all keys |
| LanguageEngine.UnderscoreIsNoticed | language_engine.py:77-79 | an underscore in a context serves the text of another key |
| Payments.Session.Commit | crypto_payment_service.py:469-470 | an accepted commit writes the changed columns over whatever rows are committed by then, a refused one nothing |
| Payments.Session.CheckPaymentStatus | crypto_payment_service.py:212-243 | whatever others have committed since the rows were loaded, a status check writes exactly the columns its transition changes on the loaded rows, and reports whether it did |
| Payments.Session.CheckBtcPayment | crypto_payment_service.py:444-477 | a funded address moves the loaded payment to CONFIRMING with the observed confirmations, whether or not they suffice, and writes that over the committed row; nothing if the required number is missing |
| Payments.Session.CheckEthPayment | crypto_payment_service.py:479-508 | the same for ETH with twelve confirmations, and nothing for USDC |
| Payments.Session.ProcessConfirmedPayment | crypto_payment_service.py:245-290 | completes a payment loaded as CONFIRMING and activates its subscription together, or leaves the committed rows alone |
| Payments.Session.PaymentWebhook | billing_routes.py:404-441 | what any webhook, early, repeated, stale or failing, writes over the committed rows |
| Payments.Session.CancelSubscription | billing_routes.py:348-365 | cancels and commits, or rolls back |
| PaymentLifecycle.LinksStay | crypto_payment_service.py:212-290 | no run adds, drops or re-links a payment, changes its expiry, currency or required confirmations, or drops a subscription |
| PaymentLifecycle.CompletedIsFinal | crypto_payment_service.py:223-261 | over every run of requests one at a time COMPLETED is never left and its dates never move |
| PaymentLifecycle.CompletedAtMostOnce | crypto_payment_service.py:256-261 | over every run of requests one at a time a payment is completed at most once, and exactly once if it ends completed and did not start so |
| PaymentLifecycle.CompletionDates | crypto_payment_service.py:256-262 | a payment completed during a run carries the time of the webhook that completed it as confirmation and as payment date |
| PaymentLifecycle.WebhookLeaves | billing_routes.py:428-435 | a webhook on a known payment goes through when processing succeeds, if it completes, and when the commit is accepted otherwise; then the row has exactly its hash and count, and else it is unchanged |
| PaymentLifecycle.HashIsOfLastWebhook | billing_routes.py:428-435 | over every run the hash of a payment is that of the last webhook of it that went through |
| PaymentLifecycle.CheckLeaves | crypto_payment_service.py:223-239 | what a status check leaves in the row: EXPIRED when late, CONFIRMING with the count seen, or twelve for ETH, when funded, nothing else otherwise |
| PaymentLifecycle.FinalStatuses | crypto_payment_service.py:223-231 | the statuses that no run of any payment ever leaves are exactly COMPLETED, FAILED and CANCELLED |
| PaymentLifecycle.ActivationsMatchPayments | crypto_payment_service.py:264-277 | over every run of requests one at a time a subscription is activated exactly as often as payments of it become completed |
| PaymentLifecycle.OnlyActivationsActivate | crypto_payment_service.py:264-277 | an activation makes the subscription active, from now for 30 or 365 days where there is a plan; an accepted cancellation cancels it, and no other request touches it |
| PaymentLifecycle.EveryCreatedPaymentBuysAYear | crypto_payment_service.py:120-134 | whatever its price, a created payment that is completed after any run sets the expiry of its subscription 365 days ahead |
| PaymentLifecycle.PendingCompletableIff | crypto_payment_service.py:223-258 | some run from a given time on completes a pending payment if and only if its coin is BTC or ETH, it has an address and a required number of confirmations, and it is not expired then |
| PaymentLifecycle.CreatedCompletableIff | crypto_payment_service.py:102-140 | a created payment can be completed by some later run if and only if it is in BTC or ETH and its timeout has not passed |
| PaymentLifecycle.UncheckedCoinsNeverComplete | crypto_payment_service.py:499-504 | over every run a payment in USDC that is not confirming already is never completed |
| PaymentLifecycle.ExpiredIsFinal | models_subscription.py:283-288 | once EXPIRED is recorded, no later run on a monotone clock leaves it |
| PaymentLifecycle.CompletableIffUnexpired | crypto_payment_service.py:223-231 | after a status check of a CONFIRMING payment some later run completes it if and only if it was not expired then and has a required number of confirmations |
| PaymentLifecycle.CancellationCanBeUndone | billing_routes.py:352-356 | a completing webhook after a cancellation makes the subscription active again |
| PaymentLifecycle.CancelledUntilActivated | billing_routes.py:352-356 | over any run without another cancellation, a cancelled subscription stays cancelled if and only if no payment of it is completed, and is active otherwise |
| OverlappingRequests.OnceAndForAllIffNeverLate | crypto_payment_service.py:223-258 | throughout any run of overlapping requests a payment is completed at most once and never left if and only if no commit changes the status of a payment completed since it was loaded |
| OverlappingRequests.CompletedStays | crypto_payment_service.py:256-261 | without such a commit a completed payment keeps its status and both dates |
| OverlappingRequests.WebhookWrites | billing_routes.py:428-435 | the commit of a webhook that goes through leaves its hash and its count, and both dates when it completes, each exactly unless it was loaded with that value already and changed by another commit since |
| OverlappingRequests.CheckWrites | crypto_payment_service.py:212-243 | the commit of a status check writes at most status and count, each only if the check changed it |
| OverlappingRequests.ConservedIffNeverLate | crypto_payment_service.py:256-283 | throughout any run of overlapping requests, as many commits carry an activation of a subscription as payments of it became completed, if and only if no such commit hits one of them |
| OverlappingRequests.ActivationWrites | crypto_payment_service.py:264-277 | a commit that carries an activation leaves status, start and expiry with the values of the activation, each exactly unless it was loaded with that value already and changed by another commit since; and cancellation columns alone |
| OverlappingRequests.DatesStayUnlessActivated | crypto_payment_service.py:264-277 | over every run of overlapping requests the dates of a subscription move, and its status becomes anything but Cancelled, only if a commit carries an activation of it |
| OverlappingRequests.UncheckedNeverComplete | crypto_payment_service.py:499-504 | over every run of overlapping requests a payment in USDC that is not confirming already, there or in a request under way, is never completed |
| OverlappingRequests.SerialIfCurrent | crypto_payment_service.py:212-290 | if every commit finds its rows as they were loaded, the run has the effect of its requests one at a time in the order of their commits |
| OverlappingRequests.AloneIsStep | billing_routes.py:216-441 | a request that commits with nothing between its load and its commit does what it does alone |
| OverlappingRequests.TwoWebhooksCompleteTwice | billing_routes.py:421-435 | any two completing webhooks that both load the payment as CONFIRMING complete it twice and both carry an activation |
| OverlappingRequests.TwoWebhooksMoveDatesTwice | crypto_payment_service.py:269-277 | and where there is a plan the second one moves the start and the expiry of the subscription again |
| OverlappingRequests.ActivationLostToCancellation | crypto_payment_service.py:264-277 | a webhook that loaded an active subscription completes its payment without a late commit, and the subscription stays cancelled if it was cancelled in between |
| OverlappingRequests.StaleCheckReopens | crypto_payment_service.py:444-508 | a check that loaded a pending payment in BTC or ETH reopens it after another check and a webhook have completed it |
| HistoricalData.GenerateHistoricalData | fast_batch_processor.py:29-93 | the nested loops yield, segment by segment, the interpolated records with both ends |
| HistoricalData.RecordCount | fast_batch_processor.py:52-60 | the number of records is the total number of days plus the number of segments |
| HistoricalData.BuiltInRecords | fast_batch_processor.py:34-48 | the built-in anchors are increasing and give 738 records |
| HistoricalData.InterpolationStaysBetween | fast_batch_processor.py:63-68 | before noise a value lies between the values at its segment's ends |
| HistoricalData.RecordIsOnLine | fast_batch_processor.py:60-89 | each record of a segment is made of the three values on the straight line between its anchors, each times its own factor for the date; difficulty and capitalisation come from the unrounded products |
| HistoricalData.SegmentEnds | fast_batch_processor.py:60-68 | the first and last record of a segment are those of the anchors themselves |
| HistoricalData.OneRecordPerDay | fast_batch_processor.py:70-76 | two generated records of one date are identical, as the noise depends on the date alone |
| HistoricalData.EveryDayHasARecord | fast_batch_processor.py:52-61 | no date between the first and the last anchor is left out |
| HistoricalData.BatchInsert | fast_batch_processor.py:95-142 | inserts the points in order, dropping conflicts on the date, all or nothing |
| HistoricalData.EachDayOnce | fast_batch_processor.py:103-110 | inserting the generated records keeps old rows and gives each date of the range, and no other, exactly one row |

## Left out

- Redis wire behaviour, JSON and key prefixes: the shared level is an expiring map of values that round-trip; empty strings, strings that look like JSON, and booleans do not.
- MD5 and argument printing: a cache key is an arbitrary function of the arguments, and the equivalence in `RightIffKeysDetermine` says what it must satisfy.
- `clear` with a pattern other than `*` on the shared level and on managers: the two levels interpret patterns differently.
- Zero and negative lifetimes over runs of managers: the operations model them, the theorems of `Fleet` ask for positive ones.
- Time inside one manager operation, including between a shared lookup and its backfill, and between the two writes of a `set`: each operation happens at one instant, as one step.
- Configurations reloaded while a manager runs: each manager keeps the lifetimes it has loaded.
- Clocks that go back, and clocks that differ between processes.
- The 30 seconds of `event.wait`: a waiter may time out at any moment, which includes every real timing.
- Exceptions outside `Exception` in a coalesced function, and a coalesced function that re-enters its own key.
- The arguments of `coalesce` and the call of `func` itself: what it returns or raises is the outcome carried by the publishing step.
- `ttl`, `exists` of the shared level, statistics export, warm-up and the compression helpers: reads or simple loops over what is modelled.
- RequestCoalescing.RequestCoalescer.Admit: the class assigns fresh events by key and call number instead of allocating objects.
- Cached.RecomputationRate: one call after another, and where there is a shared level it answers always and loses nothing.  After an execution that raised or returned None the next call runs the function again, so no bound holds there (`FreshIffUseful`).
- Floating-point rounding, and the decimal types of the database driver.
- HostingAnalytics.CalculateClientSettlement: the two queries are filters of arbitrary histories and device lists; connection failures are not modelled.
- `calculate_mining_profitability` is an arbitrary calculation, additive where a theorem needs it; payback days, rounding, average and the summary of a batch are not modelled, nor is parsing of malformed entries, nor the separate path for very large batches.
- `miner_price_map`: it repeats a component of the group key.
- Interpolation of keyword arguments into texts: an arbitrary function of the text; `format_cache` is never filled.
- Prices, rates, wallets, QR codes, audit logs and the payment monitor service: payment runs contain status checks, webhooks and cancellations, from any rows; a payment's creation is a function of its price in coins.
- Login, roles and ownership checks of the billing routes; a request that fails them changes nothing.
- Overlapping requests: a session takes its payment rows at one instant, its subscription rows at that or a later one, and a commit is one instant that writes the columns whose values differ from the loaded ones, as SQLAlchemy does; early flushes, row locks held between flush and commit, and deadlocks are not modelled.
- PaymentLifecycle.ExpiredIsFinal: for requests one at a time, and by `SerialIfCurrent` for overlapping ones whose commits find their rows as loaded; a stale status check can leave EXPIRED as it can leave COMPLETED.
- PaymentLifecycle.CompletableIffUnexpired: likewise.
- PaymentLifecycle.CancelledUntilActivated: likewise.
- OverlappingRequests.ActivationWrites: reads the text 'active' as the status of that name also where it decides whether the column has changed; taken as a text it would always count as changed.
- The text 'active' assigned to an enumeration column whose stored names are upper case (crypto_payment_service.py:267, models_subscription.py:122): it is read here as the status of that name.  If the database layer refuses it, every commit of an activation fails, `processes` is never true, and no payment of a subscription is ever completed by these requests.
- The random generator of the historical data: a function from the date to the three factors; the row count reported by the insertion.
- Flask, HTTP, SQL text, exports, e-mail, web3 and IPFS calls, and the other indicators of the platform.
