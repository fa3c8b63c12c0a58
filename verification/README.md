# DiorHost bot: verified models of its stateful cores

This project models the parts of the DiorHost Telegram bot and reseller API in which money, machines, locks and message
text change step by step, and proves what they keep. Amounts are in cents, times in milliseconds, and every `await` of
the program is a point at which another request may step in.

- **Reseller saga** (`IdempotencyStore`, `ResellerDb`, `ResellerSaga`, `Saga*`, `Renewals`, `ResellerRateLimit`): create, extra-IPv4
  and renew requests as one transition system over a shared idempotency store, wallets, service rows, a ledger and the
  machines of the provider. Providers, the database and the clock choose the outcomes. The store and the transactions are
  also written as classes whose methods are proved against the functions that the transition system uses.
- **Chat sequencer and limiters** (`ChatSequencer`, `FloodLimiter`, `FloodWindows`, `WindowBudget`): the promise chain as a
  graph of tickets that refines a first-in-first-out mutex for each chat, and the two insertion-ordered maps that evict.
- **Message normaliser** (`Message*`, `WelcomeHead`): the regular-expression passes as recursive functions over characters, and what they
  keep and delete, position by position.
- **Settlement and subscription** (`TopUps`, `TopUpSettlement`, `TopUpRuns`, `PrimeBilling`): two pollers that settle and expire the
  same top-ups, and Prime billing calls that overlap.
- **Small algorithms** (`StableId`, `OsPicker`, `Escaping`, `Ipv4Merge`).

Each transition system has a `Step` datatype, `Enabled` and `Next`. Main results speak of `Run(s, steps)` for every list of
steps that can be run, so of every interleaving and every pattern of failures.

## Where the code differs from what is said about it

- The comment on `polishMessageText` says that `<pre>` blocks stay verbatim. A blockquote inside one is trimmed
  (`QuoteInPreIsTrimmed`). What becomes of the blocks is known exactly (`BlocksOneByOne`): all come out verbatim if and only if the
  blockquote pass drops no character inside one (`BlocksVerbatimIff`), and every block that no blockquote overlaps does
  (`UnquotedBlocksStay`).
- A repeated idempotency key with another body is told "in progress", not "conflict", until the first answer is recorded
  (`BodyMattersWhenCompleted`, `LaterRequestsAreAnswered`).
- In the in-memory store a claim gives way after 15 minutes even when its handler still runs; with Redis it stays until its time to
  live is over. Keys carry their route, so requests that share one are all creations, or all purchases of an address for one service.
  One charge per key holds in every run in which no request takes over from one that is still at work or was charged while the key
  can still be charged (`OneChargePerKey`); taking over from one that crashed uncharged, which the lease is for, is harmless.
  - For creations the condition is exact: from every reachable state in which a request could take over otherwise, a run leads to two
    charges, quota, wallet and provider allowing (`LapsedRecordChargesTwice`, `ReachableTakeover`, `LeaseRunsOut`).
  - For purchases the transaction counts again. Without a stale save of the service at most one is ever charged, take-overs included
    (`OneAddressIsSold`, `OneChargePerPurchaseKey`). With stale saves it takes a take-over as well, of a key that is not sealed: a key
    is sealed when its service cannot exist, belongs to somebody else, or is sold out with no renewal under way that read it earlier.
    A sealed key is never charged again (`SealedIsNeverCharged`); from every reachable state in which a request could take over one
    that is not sealed, a run charges it twice, for a reseller with a wallet, who may still create the service if it does not exist
    (`LapsedPurchaseChargesTwice`, `ReachablePurchaseTakeover`).
- A renewal saves the row it read before its transaction. Behind it the row counts exactly the charged addresses if and only if the
  row it read counted as many as the row it writes over (`RenewalKeepsCountIff`). In runs without a stale save the limit is exact
  (`ReachableLimit`); from every state in front of one, another address can be sold past the limit (`StaleRenewalSellsAnother`,
  `RenewalForgetsAddress`).
- A renewal of two months, or of any other number that is not 1, 3, 6 or 12, costs that many months and lasts one
  (`PaysForItsDays`).
- A top-up can be credited twice when three things meet: transactions that are not isolated, a gateway that reports one order both
  paid and dead, and an entity read before the credit that is saved over its mark while another settlement has begun with the row
  unmarked (`ContradictoryVerdictsPayTwice`). That save is the exact condition, whatever gateways say: without one nothing is credited
  twice, and behind each one a run without another credits a second time (`CreditedOnceUnlessMarkIsLost`, `LostMarkPaysAgain`,
  `CreditedTwiceIff`). Any other save over a mark is harmless. Isolation or an honest gateway rules it out (`IsolationSettlesOnce`,
  `HonestGatewaySettlesOnce`).
- The synthetic client id is not unique: exactly which strings share one is `SharedIds`.

## Model

| member | source | states |
|---|---|---|
| IdempotencyStore.BeginGrants | src/infrastructure/redis/reseller-security-store.ts:71-92 | a request is let in exactly when nothing holds its key, and then holds it for one lease or one time to live, whichever is shorter; other keys and refused requests change nothing |
| IdempotencyStore.BodyMattersWhenCompleted | src/infrastructure/redis/reseller-security-store.ts:71-85 | exactly when a repetition is a conflict, in progress or a replay; the body counts only once an answer is recorded |
| IdempotencyStore.CompletedAnswers | src/infrastructure/redis/reseller-security-store.ts:95-118 | behind a recorded answer the same body gets exactly it and any other a conflict, until it expires |
| IdempotencyStore.ReleaseFrees | src/infrastructure/redis/reseller-security-store.ts:120-141 | giving a key back lets the next request in, and only the claimant's own body can |
| IdempotencyStore.PruningIsInvisible | src/infrastructure/redis/reseller-security-store.ts:155-163 | dropping expired entries changes no later answer |
| IdempotencyStore.Store.Begin | src/infrastructure/redis/reseller-security-store.ts:71-92 | the in-memory branch does what `Begun` says, to its answer and to the map |
| IdempotencyStore.Store.Complete | src/infrastructure/redis/reseller-security-store.ts:114-117 | overwrites the key's record with the answer |
| IdempotencyStore.Store.Release | src/infrastructure/redis/reseller-security-store.ts:137-140 | removes the record only while it is processing with this body |
| IdempotencyStore.Store.Prune | src/infrastructure/redis/reseller-security-store.ts:160-162 | the loop keeps exactly the entries that have not expired |
| ResellerDb.Database.DebitResellerBalance | src/modules/reseller/services/reseller-billing.ts:53-83 | deducts exactly when reseller, link, user and balance allow, otherwise reports the first obstacle and changes nothing |
| ResellerDb.Database.FindByVmid | src/api/reseller-api.ts:1228-1230 | finds a row with this machine if and only if there is one |
| ResellerDb.Database.CommitCreate | src/api/reseller-api.ts:1270-1313 | all of debit, row and ledger entry, or nothing |
| ResellerDb.Database.CommitExtraIpv4 | src/api/reseller-api-vm-ops.ts:148-173 | checks row and limit again, then debit, ledger, count and price together, or nothing |
| ResellerDb.Database.CommitRenew | src/api/reseller-api.ts:2061-2077 | debit, ledger and the snapshot saved with a new expiry, or nothing |
| ResellerDb.WhyUnaffordable | src/modules/reseller/services/reseller-billing.ts:53-83 | exactly when each of the four errors is reported, and whose balance is read otherwise |
| ResellerDb.WhyNoAddress | src/api/reseller-api-vm-ops.ts:148-173 | exactly when a purchase is refused for its service, for its limit and for each billing error |
| ResellerDb.WhyNotBooked | src/api/reseller-api.ts:1270-1313 | likewise for creations, and for renewals |
| ResellerDb.DebitAddsUp | src/modules/reseller/services/reseller-billing.ts:53-83 | a debit keeps every wallet at opening balance plus movements, never negative, every entry with its running balance |
| ResellerSaga.StepFrame | src/api/reseller-api.ts:1126-1332 | which parts of the shared state a step of one request may touch |
| ResellerSaga.RequestFrame | src/api/reseller-api.ts:1270-1313 | a request keeps reseller, key, body and job, and gets a charge only from a committed transaction |
| SagaServices.WalletsAddUp | src/api/reseller-api.ts:1271-1284 | over every run: balance is opening balance plus top-ups minus debits, never negative, and each entry's balanceAfter is the running balance at its commit |
| SagaServices.ServicesAgreeWithLedger | src/api/reseller-api.ts:1236-1288 | over every run: a service exists exactly when its creation was charged once, its price is the creation price plus the monthly price of the addresses it counts, and the count matches the ledger unless a stale renewal overwrote it |
| SagaMachines.MachinesStayAccounted | src/api/reseller-api.ts:1203-1313 | over every run, under any failures: each machine has exactly one owner: a service row, a request in flight or crashed, or a rollback that stranded it (when that happens: `SagaRollbacks.StrandedMeansFourFailures`); and nothing owns a machine that is gone (from the fresh state: `SagaReachable.ReachableIsConsistent`) |
| SagaMachines.QuietMeansServed | src/api/reseller-api.ts:1224-1313 | when no handler runs or has crashed, machines belong to rows except for failed rollbacks, and every row has its machine |
| SagaMachines.FreshMachineIsUnregistered | src/api/reseller-api.ts:1228-1239 | when the provider gives fresh ids, the check for a registered machine never fires |
| SagaMachines.RegisteredIsRolledBack | src/api/reseller-api.ts:1228-1239 | a machine is rolled back by the check if and only if a row has it |
| SagaMachines.DeleteProvisionedVmWithRetry | src/api/reseller-api-vm-ops.ts:41-52 | deletes if and only if one of the attempts would, and stops at the first that does |
| SagaRollbacks.StrandedMeansFourFailures | src/api/reseller-api-vm-ops.ts:41-52 | over every run from a fresh deployment: a machine is left over if and only if the one request it was given to made four attempts to delete it and all failed; no request makes more than four or succeeds twice |
| SagaRollbacks.RollbackIsRetry | src/api/reseller-api.ts:1224-1313 | the steps of a rollback are the retry loop with four attempts: same number, and the machine goes exactly when the loop reports success |
| SagaReachable.FreshIsConsistent | src/api/reseller-api.ts:1126-1332 | a fresh deployment satisfies every invariant of the saga |
| SagaReachable.ReachableIsConsistent | src/api/reseller-api.ts:1126-1332 | in every state reached from a fresh deployment: wallets and ledger add up, services agree with the ledger, charges with requests, and each machine has exactly one owner |
| SagaReachable.ReachableQuota | src/api/reseller-api.ts:1156-1173 | from a fresh deployment on, with at most k creates in flight, at most maxVps + k - 1 services |
| SagaReachable.ReachableLimit | src/api/reseller-api-vm-ops.ts:148-173 | from a fresh deployment on, without stale saves, an address count equals its charges and stays within the limit |
| SagaKeys.StepKeepsKey | src/api/reseller-api.ts:483-530 | one holder and one paid request per key, replays that are the paid request's answer: kept by every step, except one that takes over a lapsed record from a request that is at work or was charged while the key is not sealed; behind a take-over of a sealed key, one paid request and the seal are kept |
| SagaKeys.OneChargePerKey | src/api/reseller-api.ts:483-530 | over every run without such a take-over, retries after an uncharged crash and take-overs of sealed keys included: at most one request per idempotency key is charged; without any take-over it keeps the key until its answer stands in its place |
| SagaKeys.SealedStays | src/api/reseller-api-vm-ops.ts:110-163 | every step keeps the seal of a purchase's key: the service cannot exist any more, is somebody else's, or is sold out with no older row in a renewal's hands |
| SagaKeys.SealedIsNeverCharged | src/api/reseller-api-vm-ops.ts:148-173 | from a sealed state on, in every run, the requests charged with the key stay the same |
| SagaReachable.OneAddressIsSold | src/api/reseller-api-vm-ops.ts:148-173 | from a fresh deployment on, without stale saves of a service, at most one purchase for it is charged, whatever keys and take-overs there are |
| SagaReachable.OneChargePerPurchaseKey | src/api/reseller-api.ts:1549-1608 | so a purchase's key is charged once in every such run, take-overs included |
| SagaKeys.LaterRequestsAreAnswered | src/api/reseller-api.ts:492-518 | what the store tells a later request: in progress, exactly the recorded status and service, or a conflict, and exactly when (the handler sends a replay with `idempotentReplay: true` and a request id of its own) |
| SagaKeys.ShortRunsNeverTakeOver | src/infrastructure/redis/reseller-security-store.ts:71-92 | a run shorter than the lease and the time to live has no take-over of any key |
| SagaQuota.CheckLoad | src/api/reseller-api.ts:1156-1173 | a request that passes the quota check leaves services plus requests past the check at no more than maxVps - 1 + k |
| SagaQuota.QuotaHolds | src/api/reseller-api.ts:1156-1173 | over every run with at most k creates in flight: services plus requests past the check never exceed maxVps + k - 1, or what there was |
| SagaQuota.QuotaIsExact | src/api/reseller-api.ts:1156-1173 | one create at a time: never more than maxVps services |
| SagaQuota.CheckPassesIff | src/api/reseller-api.ts:1156-1173 | a creation passes exactly when its reseller has fewer services than maxVps, or maxVps is 0, or there is no such reseller |
| SagaCharges.ChargesMatchRequests | src/api/reseller-api-vm-ops.ts:148-173 | over every run: each ledger entry is one request's, each request is charged at most once (creations and addresses at their price, renewals at the one of `SagaEarned.EveryChargeIsEarned`), and each address charge has its own earlier assignment |
| SagaEarned.EveryChargeIsEarned | src/api/reseller-api.ts:2030-2077 | over every run from a fresh deployment, what each ledger entry stands on, in order, and the row it leaves: quota, money, machine and price for a creation of 30 days; room, money, address and monthly price for a purchase; for a renewal the row as it was read, its price times the months, and the later of old end and reading of the wallet plus its days |
| SagaEarned.ProviderIsAskedLate | src/api/reseller-api.ts:1156-1222 | the provider is asked for a machine or an address only behind a passed quota or limit check and a wallet that covered the price, in that order |
| SagaAlone.CreationAlone | src/api/reseller-api.ts:1126-1332 | a creation nothing interrupts, for every input: charged with its machine, answered and recorded exactly when quota, wallet and provider allow; otherwise nothing changes and the key is free |
| SagaAlone.PurchaseAlone | src/api/reseller-api.ts:1549-1608 | likewise a purchase: exactly when the service is the reseller's and has no extra address, the wallet covers the price and the provider assigns one |
| SagaAlone.RenewalAlone | src/api/reseller-api.ts:2030-2077 | likewise a renewal, for every number of months: the database of `Renewals.Renewed`, or the one before |
| SagaAlone.CreationRollsBack | src/api/reseller-api.ts:1224-1313 | a creation whose transaction throws or whose machine has a row already: nothing charged, key free, machine gone if and only if one of four deletions succeeds |
| SagaAlone.PurchaseThrows | src/api/reseller-api-vm-ops.ts:148-173 | a purchase whose transaction throws: nothing charged, the address stays assigned and the key claimed for one lease |
| SagaAlone.RenewalThrows | src/api/reseller-api.ts:2055-2077 | a renewal whose transaction throws changes nothing |
| SagaCharges.ExtraIpv4IsConsistent | src/api/reseller-api-vm-ops.ts:104-197 | however many purchases interleave: count within the limit, price is base plus count times monthly price, wallet loss is charges times monthly price, charges matched to assigned addresses, and count equals charges unless a stale renewal overwrote it |
| SagaBoundaries.CreateGetsReady | src/api/reseller-api.ts:1126-1235 | a create request with a free key, quota and money gets to its transaction, holding its key and a machine |
| SagaBoundaries.CreateCommits | src/api/reseller-api.ts:1270-1288 | and the transaction goes through while the wallet covers the price |
| SagaBoundaries.BuyGetsReady | src/api/reseller-api-vm-ops.ts:110-146 | a purchase below the limit with money, and a free key if it came with one, gets to its transaction with an assigned address, holding its key |
| SagaBoundaries.RenewGetsReady | src/api/reseller-api.ts:2036-2060 | a renewal of any number of months with money gets to its transaction, holding the row it read, the price of all its months and the new end |
| SagaBoundaries.LapsedClaimChargesTwice | src/infrastructure/redis/reseller-security-store.ts:82-91 | from every state with a lapsed claim in front of its commit, a run leads to two charges for one key and body |
| SagaBoundaries.LeaseRunsOut | src/api/reseller-api.ts:1126-1332 | such a run from the fresh state; it also passes the quota with two requests in flight |
| SagaTakeovers.ReleaseFreesAnother | src/infrastructure/redis/reseller-security-store.ts:137-140 | a creation that gives up behind a take-over with its own body frees the newcomer's claim, and two newcomers are charged |
| SagaTakeovers.LapsedRecordChargesTwice | src/infrastructure/redis/reseller-security-store.ts:71-92 | from every state with a lapsed record of a creation's key whose request was charged or is at work, in any phase, a run charges two creations with the key |
| SagaPurchases.MakesRoom | src/api/reseller-api.ts:2061-2070 | from every state in which a purchase's key is not sealed, a run leads to room for an address and leaves requests with keys and their claims alone |
| SagaPurchases.ServiceArrives | src/api/reseller-api.ts:1126-1332 | a reseller without a limit of services gets to any id that was not given out, one creation after the other, and requests with keys and their claims stay |
| SagaPurchases.BothPay | src/api/reseller-api.ts:2061-2070 | two purchases with one key in front of their transactions are both charged when a renewal read the row before the first and saves it behind it |
| SagaPurchases.ReleaseLetsBuyerIn | src/infrastructure/redis/reseller-security-store.ts:137-140 | a purchase that gives up behind a take-over with its own body frees the newcomer's claim, and two newcomers get to their transactions |
| SagaPurchases.LapsedPurchaseChargesTwice | src/infrastructure/redis/reseller-security-store.ts:71-92 | from every state with a lapsed record of a purchase's key that is not sealed, whose request was charged or is at work, in any phase, a run charges two purchases with the key |
| SagaReachable.ReachableTakeover | src/infrastructure/redis/reseller-security-store.ts:71-92 | so the condition of `OneChargePerKey` is exact for creations on the states reached from a fresh deployment |
| SagaReachable.ReachablePurchaseTakeover | src/infrastructure/redis/reseller-security-store.ts:71-92 | and for purchases, given a wallet and, for an id that no service has yet, no limit of services |
| SagaServices.RenewalKeepsCountIff | src/api/reseller-api.ts:2061-2070 | a committed renewal leaves count equal to charges if and only if it read the count that it writes over |
| SagaServices.CountIsExact | src/api/reseller-api.ts:2061-2070 | over every run without a stale save of the service, count equals charges and stays within the limit |
| SagaBoundaries.StaleRenewalSellsAnother | src/api/reseller-api.ts:2061-2070 | from every state in front of a stale save, the renewal and a further purchase can commit, past the limit |
| SagaBoundaries.RenewalForgetsAddress | src/api/reseller-api.ts:2061-2070 | a run in which a stale renewal drops a paid address and a second one is sold over the limit |
| Renewals.CostIsPricePerMonth | src/api/reseller-api.ts:2036-2077 | a list of renewals goes through if and only if the wallet holds price times all months, pays exactly that, and changes nothing but balance, expiry and ledger |
| Renewals.PaysForItsDays | src/api/reseller-api.ts:541-544 | 30 days per paid month if and only if the months are 1, 3, 6 or 12 |
| Renewals.ExpiryGrows | src/api/reseller-api.ts:2058-2060 | expiry never goes back, and with listed months moves on by at least 30 days a month, whatever the clock does |
| Renewals.SplitsAreEqual | src/api/reseller-api.ts:2036-2077 | all splits of a number of months at one instant are affordable together and end with the same balances and rows |
| ResellerRateLimit.RateLimiter.RequireRateLimit | src/api/reseller-api.ts:447-461 | the counter, and a Retry-After that is the rounded-up rest of the window, at least one second |
| ResellerRateLimit.AtMostTwiceTheLimit | src/api/reseller-api.ts:447-461 | in any interval of one window length at most twice the limit is let through; a limit of 0 acts like 1 |
| ResellerRateLimit.TwiceTheLimitHappens | src/api/reseller-api.ts:447-461 | the bound is met for every limit and window: two bursts of the limit's size at the two ends of a window length all go through |
| ResellerRateLimit.RefusedAfterLimit | src/api/reseller-api.ts:447-461 | a request is turned away only when its reseller sent as many as the limit in the window length before it |
| ChatSequencer.StepKeepsInv | src/app/flood-protection.ts:27-40 | every step keeps the promise graph linked in order of arrival and gated by its handlers |
| ChatSequencer.EarlierOnesAreThrough | src/app/flood-protection.ts:31-34 | a handler does not begin before every earlier one of its chat is through |
| ChatSequencer.RefinesMutex | src/app/flood-protection.ts:17-43 | for each chat, every step is exactly one step of a first-in-first-out mutex or none; other chats, recovery commands and updates without a chat are none |
| ChatSequencer.EveryRunIsOneAtATime | src/app/flood-protection.ts:17-43 | in every state of every run one handler per chat runs, in order of arrival |
| ChatSequencer.ThrowingMakesNoDifference | src/app/flood-protection.ts:35-39 | a handler that throws enables exactly the steps that one that returns does |
| ChatSequencer.WorkOfStep | src/app/flood-protection.ts:27-40 | a chat's own steps use up its work one by one, an arrival adds three, other chats change nothing |
| ChatSequencer.AlwaysSomeStep | src/app/flood-protection.ts:31-40 | while an update of a chat is not through, a step of that chat can be taken, whatever other chats do |
| ChatSequencer.ChatDrains | src/app/flood-protection.ts:17-43 | from every state with the invariant, so every reachable one, a chat's own steps alone bring it to rest, and every way to do so takes equally many |
| ChatSequencer.ChatChains.Enter | src/app/flood-protection.ts:20-33 | recovery commands and updates without a chat take no ticket; any other one becomes the tail of its chat |
| ChatSequencer.ChatChains.Begin | src/app/flood-protection.ts:34-36 | begins only with nobody else of the chat running |
| ChatSequencer.ChatChains.Leave | src/app/flood-protection.ts:35-39 | opens the gate on return and on throw |
| FloodLimiter.PruneMap | src/app/flood-protection.ts:60-68 | the deletion loop drops exactly the tenth of the size limit that was inserted first, or nothing within the limit |
| FloodLimiter.SetAndPrune | src/app/flood-protection.ts:60-68 | setting and pruning leave at most 50 000 keys with the key in it; either nobody is dropped or exactly the first 5000 of a full map |
| FloodLimiter.CallsStayBounded | src/app/flood-protection.ts:73-118 | both limiters stay within 50 000 keys and keep the user they have just dealt with |
| FloodLimiter.FloodProtection.Admit | src/app/flood-protection.ts:84-103 | the middleware's map and decision are those of `Updated` |
| FloodLimiter.FloodProtection.CheckStartCooldown | src/app/flood-protection.ts:107-118 | the cooldown's map and decision are those of `Started` |
| FloodWindows.AtMostNinety | src/app/flood-protection.ts:45-104 | in any 60 000 ms, ends included, at most 90 updates of a user are admitted, and 45 more for each eviction in it |
| FloodWindows.WindowsAreApart | src/app/flood-protection.ts:84-91 | window starts of a user whose entry is not dropped are at least 60 000 ms apart |
| FloodWindows.AtMostFortyFive | src/app/flood-protection.ts:84-98 | and each of these windows lets at most 45 updates through |
| FloodWindows.RefusedAfterFortyFive | src/app/flood-protection.ts:84-104 | an update is turned away only when its user sent 45 others in the 60 000 ms before it |
| FloodWindows.StartsAreApart | src/app/flood-protection.ts:107-118 | two accepted /start calls of a user are 12 000 ms apart unless the user was evicted in between |
| FloodWindows.RefusedStartIsRecent | src/app/flood-protection.ts:107-118 | a /start call is turned away only when one of the same user was accepted less than 12 000 ms before it |
| MessageQuotes.TrimQuotesTight | src/ui/design-system.ts:16-22 | behind the blockquote pass every quote's content is trimmed, whatever the nesting |
| MessageQuotes.TightFixed | src/ui/design-system.ts:18-22 | the blockquote pass leaves such text alone |
| MessageQuotes.TrimQuotesIdempotent | src/ui/design-system.ts:18-22 | the blockquote pass is idempotent |
| MessagePolish.SplitWellCut | src/ui/design-system.ts:101 | splitting at pre blocks loses nothing and cuts where the pattern first matches |
| MessagePolish.CutAgain | src/ui/design-system.ts:101 | joining well-cut pieces and splitting again finds the same pieces |
| MessagePolish.PolishedWellCut | src/ui/design-system.ts:103-111 | polishing the pieces neither makes nor breaks a block |
| MessagePolish.PolishIdempotent | src/ui/design-system.ts:97-113 | `polishMessageText` is idempotent on every text, with nested, unclosed and overlapping tags |
| MessageScreens.PolishOnlyPrunes | src/ui/design-system.ts:97-113 | it only deletes white space; the other characters and their order stay (which white space: `MessageExact.PolishesExactly`) |
| MessageExact.PolishPartExactly | src/ui/design-system.ts:105-111 | outside pre blocks, position by position and without the passes: a character stays unless it is a blank at the end of its line, a line feed that two more follow, or white space at the end of the stretch |
| MessageExact.PolishesExactly | src/ui/design-system.ts:97-113 | the whole result: blocks whole, each stretch in between with exactly those characters, no white space in front |
| MessageExact.PlainMessageExactly | src/ui/design-system.ts:97-113 | for a message without blockquotes and pre blocks, the characters of it that come out |
| MessageExact.QuotesExactly | src/ui/design-system.ts:18-22 | of a blockquote's content everything stays but outer white space and blanks at the end of a line |
| MessageScreens.BlocksVerbatim | src/ui/design-system.ts:94-113 | pre blocks come out as they are behind the blockquote pass |
| MessageBlocks.KeptIsTrimmed | src/ui/design-system.ts:18-22 | the mask that says which characters the blockquote pass keeps is the pass |
| MessageBlocks.BlocksOneByOne | src/ui/design-system.ts:94-113 | the blocks of the result, exactly: each block of the message without what the blockquote pass drops in it, cut again for itself |
| MessageBlocks.BlocksVerbatimIff | src/ui/design-system.ts:94-113 | the blocks come out as they were if and only if the blockquote pass drops no character inside one |
| MessageBlocks.UnquotedBlocksStay | src/ui/design-system.ts:94-113 | every block that no matched blockquote overlaps comes out verbatim, in order |
| MessageScreens.QuoteInPreIsTrimmed | src/ui/design-system.ts:94-113 | a text whose pre block is not kept verbatim |
| MessageScreens.PlainTextClean | src/ui/design-system.ts:105-113 | text without pre blocks behind the blockquote pass has no blanks at line ends, no three line feeds in a row, no outer white space (that no more goes: `MessageExact.PlainMessageExactly`) |
| MessageBlocks.BlockWasThere | src/ui/design-system.ts:18-22 | dropping what the blockquote pass may drop makes no pre block |
| MessageBlocks.MessageWithoutBlocksIsClean | src/ui/design-system.ts:94-113 | a message without pre blocks comes out without any, and as clean |
| MessageScreens.JoinedIsFixed | src/ui/design-system.ts:119-126 | what `joinScreenSections` returns is a fixed point of polishing |
| MessageScreens.JoinKeepsInk | src/ui/design-system.ts:119-126 | joined sections say what the sections say, in their order |
| MessageLayout.JoinsExactly | src/ui/design-system.ts:119-126 | clean sections come out unchanged with one empty line between each two that say something |
| MessageScreens.PolishKeepsStructure | src/ui/design-system.ts:129-131 | a text with a divider still has one behind polishing |
| MessageScreens.PremiumScreenIdempotent | src/ui/design-system.ts:137-142 | `premiumScreen` is idempotent, and its result is empty or has a divider |
| MessageScreens.PremiumKeepsInk | src/ui/design-system.ts:137-142 | a divider is added exactly when there is none, and nothing else is said |
| MessageLayout.PremiumExactly | src/ui/design-system.ts:137-142 | a clean text comes out unchanged, followed by an empty line and the divider when it has none |
| MessageScreens.WelcomeKeepsInk | src/ui/design-system.ts:62-71 | `polishWelcomeLayout` changes nothing but white space |
| MessageWelcome.WelcomeDividers | src/ui/design-system.ts:62-71 | every divider of the result stands behind two line feeds or an opening tag, and in front of two line feeds, a closing tag or the end |
| MessageWelcome.WelcomeQuotes | src/ui/design-system.ts:67-68 | no blockquote of the result begins or ends with white space, however tags are nested |
| MessageOutgoing.WelcomePlainExactly | src/ui/design-system.ts:62-71 | for a text without tags and dividers, position by position: everything stays but blanks at line ends, line feeds that three more follow, and white space at the end |
| MessageOutgoing.EnhancedByKind | src/ui/design-system.ts:188-201 | a message with a lower-case blockquote gets the welcome layout with its guarantees, any other the polish, exactly |
| MessageScreens.SecondPass | src/app/middlewares/premium-ui-middleware.ts:16-51 | the transformer's second pass changes no visible character, and nothing at all unless the text contains a blockquote |
| WelcomeHead.NormalizeHead | src/ui/design-system.ts:28-45 | the two loops keep exactly the lines with text and the first empty line between two of them |
| WelcomeHead.HeadIsTidy | src/ui/design-system.ts:28-45 | no text is lost or moved, no empty line is first, last or doubled, and a second pass changes nothing |
| WelcomeHead.HeadKeepsGaps | src/ui/design-system.ts:28-45 | two texts in a row stay next to each other, or with exactly one empty line in between when there were any |
| PrimeBilling.Billing.EnsurePaidAfterTrial | src/index.ts:171-232 | a call alone: the lock is as before on every exit, and the account is billed or left exactly as stated |
| PrimeBilling.BilledIsCurrent | src/index.ts:190-207 | who is charged, who has a subscription behind a call and until when, all exactly; without a used trial nothing changes, and no call uses one |
| PrimeBilling.TrialIsAWeek | src/ui/integration/broadcast-tickets-integration.ts:503-506 | a trial lasts seven days, costs nothing and is then used |
| PrimeBilling.TurnedAway | src/index.ts:176-182 | a call without a user, or beside another one of its user, changes nothing |
| PrimeBilling.StepKeepsLocks | src/index.ts:180-231 | a lock is held exactly by the one call of its user inside |
| PrimeBilling.StepKeepsPeriods | src/index.ts:193-207 | every charge is covered for 30 days, so the next one of its user is due |
| PrimeBilling.ChargedOncePerPeriod | src/index.ts:167-232 | over every run: one call per user inside, no lock left behind, charges 30 days apart, balance is initial plus movements minus 999 per charge and never negative, no subscription without charge or trial, a trial is used if and only if it was at the beginning or began since, once |
| PrimeBilling.OneCallIsThreeSteps | src/index.ts:180-231 | the three steps in a row are the call alone, with and without a failing transaction |
| TopUps.PaysWhenUnmarked | src/domain/billing/settle-top-up.ts:29-136 | exactly when a settlement pays, what it pays and what it leaves alone, for any snapshot it began with |
| TopUps.Store.SettleTopUpBalance | src/domain/billing/settle-top-up.ts:26-85 | the transaction alone does what `Settled` says |
| TopUps.Store.CheckTopUpsOnce | src/api/payment.ts:282-374 | a tick alone: paid rows completed and marked, dead rows expired, others untouched, users get the amounts of their paid rows |
| TopUpSettlement.StepKeepsRows | src/api/payment.ts:282-374 | with an honest gateway rows stay consistent with it and only move forward |
| TopUpSettlement.CreditedOnceUnlessMarkIsLost | src/domain/billing/settle-top-up.ts:87-136 | over every run, whatever gateways say: no top-up is credited or followed up twice, or credited although it was marked before, as long as no older entity is saved over the mark of a credited row while another settlement has begun with the row unmarked |
| TopUpSettlement.LostMarkPaysAgain | src/domain/billing/settle-top-up.ts:64-74 | behind every such save, that settlement as the next step credits again |
| TopUpRuns.HonestGatewaySettlesOnce | src/api/payment.ts:256-388 | both pollers, any overlap, no contradictory reports: created goes to completed or expired and stays, one credit of the right amount to the right user, side effects at most once, balances conserved |
| TopUpRuns.EffectsFollowCredits | src/api/payment.ts:256-280 | over every run, whatever gateways say: credits are side effects that began, plus polls about to begin them, plus polls that crashed in between; so without such crashes each credit has had its side effects once nothing is left to do |
| TopUpRuns.EffectsOnceForCompleted | src/api/payment.ts:256-280 | with an honest gateway: exactly once for every row completed since the beginning, and never for another |
| TopUpRuns.PollAlone | src/api/payment.ts:282-374 | a poll nothing interrupts, for every row and verdict: the row of the uninterrupted tick, a credit and its side effects exactly when it was due, nothing left behind |
| TopUpRuns.SettlementArrives | src/domain/billing/settle-top-up.ts:26-85 | a settlement of a paid order ends with the row completed and marked, whoever did it |
| TopUpRuns.CreditedIsCompleted | src/domain/billing/settle-top-up.ts:87-136 | the total credited is the sum of the amounts of the rows completed since the beginning |
| TopUpRuns.IsolationSettlesOnce | src/domain/billing/settle-top-up.ts:29-84 | with isolated transactions no gateway can bring about a second credit, or one of a row marked before |
| TopUpRuns.CreditedTwiceIff | src/domain/billing/settle-top-up.ts:26-136 | over runs from the beginning, both halves: a step can be followed by a second credit without a further lost mark if and only if it loses one |
| TopUpRuns.ContradictoryVerdictsPayTwice | src/domain/billing/PaymentStatusChecker.ts:54-79 | a run without isolation and with contradictory reports that pays twice |
| StableId.StableNegativeId | src/api/reseller-api.ts:579-586 | the wrapped fold, every intermediate value below 2^53, gives the id of the exact base-31 polynomial |
| StableId.IdOf | src/api/reseller-api.ts:579-586 | the id lies between -2^31 and -1 |
| StableId.IdFromRemainder | src/api/reseller-api.ts:579-586 | which id a string gets: minus the remainder of its polynomial by 2^32 up to 2^31, that remainder less 2^32 above, -1 for 0 |
| StableId.WrapStep | src/api/reseller-api.ts:582 | wrapping at every step is wrapping once at the end |
| StableId.SharedIds | src/api/reseller-api.ts:579-586 | exactly which strings share an id |
| StableId.SomeClientsShareIds | src/api/reseller-api.ts:588-594 | two names that differ in "Aa" and "BB" share one, anywhere in the name |
| OsPicker.FilterAndSort | src/shared/vmm-os-display.ts:81-120 | the loop returns the winner of every slot that can be filled, and nothing else, in strictly increasing slots |
| OsPicker.BestWins | src/shared/vmm-os-display.ts:93-112 | the entry kept for a slot is its first eligible template, for Fedora the first of the highest version |
| OsPicker.PickIsUnique | src/shared/vmm-os-display.ts:81-120 | a list has exactly one such result |
| OsPicker.PickTwice | src/shared/vmm-os-display.ts:81-120 | picking from a result under the same allowlist changes nothing |
| OsPicker.PicksAreOffered | src/shared/vmm-os-display.ts:66-90 | no pick is for administrators, inactive, NoOS, of the excluded repository or outside the allowlist, and each has a place |
| OsPicker.LatestFedora | src/shared/vmm-os-display.ts:93-100 | when a Fedora template may be offered, one of at least its version is |
| OsPicker.PlacesAreSlots | src/shared/vmm-os-display.ts:22-54 | which slugs go to which of the twenty places |
| OsPicker.ReadsDecimals | src/shared/vmm-os-display.ts:95 | versions are read as decimal numbers |
| OsPicker.SlugIgnoresCase | src/shared/vmm-os-display.ts:56-61 | case makes no difference to a slug |
| OsPicker.SlugIgnoresDashes | src/shared/vmm-os-display.ts:56-61 | nor do dashes, underscores and white space, wherever they stand |
| OsPicker.SlugKeeps | src/shared/vmm-os-display.ts:56-61 | letters and digits are kept, but for the two short names of AlmaLinux |
| Escaping.FivePassesAreOne | src/helpers/formatting.ts:1-8 | five replacements of the whole text are one map over its characters |
| Escaping.NoMarkupIsLeft | src/helpers/formatting.ts:1-8 | no angle bracket or quotation mark is left |
| Escaping.EscapeReadsBack | src/helpers/formatting.ts:1-8 | a decoder recovers the text, so escaping is injective |
| Ipv4Merge.MergeServiceIpv4Addresses | src/api/reseller-api-vm-ops.ts:71-81 | every real address once, in order of first appearance |
| Ipv4Merge.PrimaryIsFirst | src/api/reseller-api-vm-ops.ts:78-80 | a real primary address comes first |
| Ipv4Merge.MergeAgain | src/api/reseller-api-vm-ops.ts:70-81 | merging a merged list changes nothing |

## Left out

- SagaKeys.OneChargePerKey: the Redis branch of the store; its read and its SET NX are two steps, and only the in-memory branch is modelled.
- SagaBoundaries.RenewalForgetsAddress: renewals race everything else in the saga, but prices and expiry of several renewals are proved for one after the other (`Renewals`).
- Deleting, importing and reinstalling services, resetting their password or network (which saves a row read earlier, as a renewal does), and an operator who changes maxVps or prices while requests run: other handlers with their own rules.
- Exceptions of the database outside the transactions, of webhooks and of notifications: a request that meets one is a `Crash` step, with no claim beyond who owns its machine.
- A provider that reports a failed deletion although it deleted, or that hands out the id of a live machine: its word is taken.
- Authentication, HMAC, nonces and IP checks in front of the reseller API: the model starts behind them.
- Isolation of wallet debits: `debitResellerBalance` reads and saves without a row lock, and the transaction is one step here.
- Rounding of money in floating point: cents are integers.
- PrimeBilling.ChargedOncePerPeriod: starting the trial is one step. The handler reads the user seconds before it saves, the chat sequencer keeps two activations of a user apart, and what its save does to a balance that changed meanwhile is not modelled; nor are edits by an administrator.
- TopUpSettlement.StepKeepsRows: a save of an entity is one step; TypeORM's own read and update inside `save` are not separated. What `runPostTopUpCreditSideEffects` does is not modelled, only that it begins.
- FloodWindows.AtMostNinety: updates outside private chats and recovery commands pass both limiters unseen, and the warnings counter is not modelled.
- MessageScreens.WelcomeKeepsInk: idempotence of `polishWelcomeLayout` is not claimed, because text around a divider in the middle of a line is outside what it is meant for; the account card around it is not modelled.
- OsPicker.FilterAndSort: Fedora versions too large for an exact number. The labels and default logins of the same file are lookups.
- StableId.StableNegativeId: `charCodeAt` gives UTF-16 units, so strings are sequences of units.
- Telegram menus, conversations, translations, HTTP clients, configuration: plumbing around the modelled parts.
