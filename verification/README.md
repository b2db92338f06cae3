# Verified model of the toko backend's protocols

This project models the stateful core of the toko commerce backend in Dafny and proves what its
parts promise over whole runs. Redis sorted sets, Redis keys with a time to live and table rows are
maps; time is a non-decreasing integer; randomness, clocks and replies from the network are
parameters. For each protocol there is a value-level step function whose runs carry the theorems, and,
where the program updates state in place or loops, a class or a method proved equal to that function.

| files | what they cover |
|---|---|
| `Common` | optional values, small arithmetic, 32-bit and 64-bit conversions |
| `Queue`, `QueueWorker`, `QueueIdempotency`, `QueueConservation`, `QueueDelivery`, `QueueTiming` | the Redis task queue: enqueue, claim, acknowledge, fail, expiry sweep, crash, dead-letter replay |
| `Breaker`, `BreakerOpening`, `HttpClient` | the failure-ratio circuit breaker, backoff, and retrying calls that share a breaker |
| `LeaseLock`, `SlidingWindow` | the Redis lease lock and the sliding-window rate limiter |
| `Cart`, `CartMerge`, `CartService` | cart lines, their invariants, and merging a guest cart |
| `VoucherRules`, `VoucherAgreement`, `Checkout` | the two voucher evaluators, pricing and order totals |
| `Orders`, `Payments`, `Settlement`, `OrderLifecycle` | payment intents and webhooks, stock and voucher settlement |
| `Fulfilment` | shipments, tracking events, administrative patches and the order status |
| `WebhookDelivery` | webhook scheduling, attempts, backoff, dead-lettering and replay |

`dafny verify dfyconfig.toml` checks the whole project.

## What the code does that its documentation does not say

- The client's own breaker for calls without one is commented as never tripping
  (`internal/resilience/httpwrap.go:37`); it never opens if and only if its first outcome, if any, is a
  success (`HttpClient.DefaultBreakerNeverOpensIff`, `HttpClient.DefaultBreakerTrips`).
- The cart contract says merging adds quantities up (`docs/contracts/cart.md:271`); the code takes the
  larger one, which is the sum if and only if one of the carts lacks the item (`CartMerge.MergeAddsUpIff`,
  `CartMerge.TwoAndThreeMergeToThree`).
- A breaker whose threshold is above 2m/(2m+1) never opens again once a success is counted
  (`BreakerOpening.OpenableIff`, `BreakerOpening.OneSuccessHoldsItClosed`).
- An administrator may name CANCELED as a target but no patch can perform it
  (`Fulfilment.AdminNeverCancels`, `Fulfilment.PatchTakesEffectIff`); a parcel delivered without an
  out-for-delivery event leaves its order SHIPPED (`Fulfilment.SkippedStopIsStuck`,
  `Fulfilment.OrderFollowsLog`).
- A refund notice is stored as PENDING, so a later PAID notice takes the stock again; an order is settled at
  most once if and only if its notices do not go from PAID to something else and back
  (`Payments.RefundThenPaidSettlesTwice`, `Payments.SettledOnceIff`).
- A lock callback is not stopped at the end of its lease; callbacks overlap if and only if someone tries the
  lock then (`LeaseLock.OverrunOverlaps`, `LeaseLock.CallbacksNeverOverlapIff`).
- A queue handler that fails after its claim was swept duplicates its task
  (`QueueIdempotency.OverrunDuplicates`, `QueueIdempotency.RunIdempotentIff`), and two equal unkeyed tasks are
  stored once (`QueueConservation.TwinsCollapse`, `QueueConservation.NoTaskLost`).
- The limiter's key lives for whole seconds, so a window of a second and a fraction lets too many requests
  through; no other window does (`SlidingWindow.FractionalWindowOverAdmits`, `SlidingWindow.LimitHoldsIff`).
- A long webhook backoff wraps and is due at once; attempts keep their distance if and only if the longest
  delay is below 2^31 seconds (`WebhookDelivery.LongBackoffWraps`, `WebhookDelivery.DistanceKeptIff`).
- The cart and the voucher preview differ on a line without a category whose brand is covered
  (`VoucherAgreement.StrandedLineDiffers`, `VoucherAgreement.EvaluatorsAgreeIff`).

Each entry names a lemma that gives the exact condition under which the intended property holds.

## Modelling decisions

- In the queue, a claim (pop and record), an acknowledgement, a failure and the requeueing of one expired
  entry are single steps. The program makes several Redis calls for each without guarding the gaps.
- A queued task is identified by its key, payload and attempt limit, which is all that its stored
  document keeps; two unkeyed tasks with the same document are one entry
  (`QueueConservation.UnkeyedTaskAddsEntryIff`).
- Sorted-set ties, lookups limited to one row and listings without a total order are left
  nondeterministic: the event names the entry taken, or the result is any row that matches.
- Quantities and webhook delays are converted to 32 bits as the program does, and backoffs are computed in 64
  bits; amounts and times are unbounded integers, ratios and jitter are exact reals.
- Rows of the payments table are ordered by creation, so the latest is the last.

## Model

| member | source | states |
|---|---|---|
| QueueWorker.TaskQueue.Enqueue | internal/queue/queue.go:40-98 | enqueueing is the protocol's enqueue event, which EnqueueLeavesEntry describes |
| QueueWorker.TaskQueue.LowestScore | internal/queue/queue.go:227-227 | the popped member has the lowest score of the ready set |
| QueueWorker.TaskQueue.Poll | internal/queue/queue.go:227-292 | one worker turn is the pop event: a due head is claimed with its attempt raised and a visibility deadline, any other is put back |
| QueueWorker.TaskQueue.Ack | internal/queue/queue.go:329-340 | acknowledging removes the claim and frees the key |
| QueueWorker.TaskQueue.HandleFailure | internal/queue/queue.go:296-327 | a failed attempt is written back with its backoff, or dead-lettered and its key freed when attempts are used up |
| QueueWorker.TaskQueue.RequeueExpired | internal/queue/queue.go:342-362 | a sweep is a run of requeue events that takes exactly the expired claims out of the processing set |
| QueueWorker.TaskQueue.RequeueEntry | internal/queue/admin_handlers.go:223-248 | a replay is an enqueue of the stored task one attempt back, then deletion of its row |
| QueueIdempotency.StepKeepsIff | internal/queue/queue.go:68-89 | every event keeps "a key is held exactly while one task has it, never two" if and only if it is harmless where it happens |
| QueueIdempotency.RunIdempotentIff | internal/queue/queue.go:296-362 | a run is idempotent throughout if and only if none of its events is harmful |
| QueueIdempotency.InTimeRunIsIdempotent | internal/queue/queue.go:262-292 | every run whose handler effects land before their deadlines and whose keys do not lapse is idempotent throughout |
| QueueIdempotency.HandlersHoldStep | internal/queue/queue.go:268-292 | a handler with time left still owns its claim and no other such handler has its key |
| QueueIdempotency.ReplayRevivesOrIsLive | internal/queue/admin_handlers.go:223-248 | a replay puts the task back in the ready set or its key already has a live task |
| QueueIdempotency.OverrunDuplicates | internal/queue/queue.go:348-360 | a concrete run in which a late failure leaves two ready copies of one key |
| QueueConservation.NoTaskLost | internal/queue/queue.go:262-362 | in every run, with crashes and overruns, a task's stored copies are its acceptances less acknowledgements and surrenders, less one per collision, plus one per stray; so none is missing if and only if collisions do not outnumber strays; its dead-letter rows are those buried and not replayed |
| QueueConservation.StepKeepsCopiesIff | internal/queue/queue.go:68-91 | an event keeps a copy of everything owed if and only if it does not write over a document already there |
| QueueConservation.NoTaskLostWithoutCollisions | internal/queue/queue.go:262-362 | in a run without such writes every task keeps at least one copy per acceptance owed |
| QueueConservation.KeyedTasksExact | internal/queue/queue.go:68-89 | in every in-time run a keyed task has exactly one copy per acceptance owed |
| QueueConservation.TwinsCollapse | internal/queue/queue.go:83-91 | a concrete run in which two accepted unkeyed tasks are stored once |
| QueueConservation.SomeCopySurvives | internal/queue/queue.go:262-362 | even with collisions, after an acceptance at least one copy with that key, payload and limit is stored until one such copy is acknowledged or given up; likewise for dead-letter rows until one is replayed |
| QueueConservation.SomeCopySurvivesFromEmpty | internal/queue/queue.go:262-362 | the same for every run of an initially empty queue |
| QueueConservation.UnkeyedTaskAddsEntryIff | internal/queue/queue.go:83-91 | an unkeyed task adds an entry if and only if the same document is not already waiting |
| QueueDelivery.RunSpends | internal/queue/queue.go:303-321 | along a run, hand-outs of a key plus its remaining budget never exceed its budget plus expiries, with equality without expiries and successes |
| QueueDelivery.FreshTaskRunBound | internal/queue/queue.go:303-321 | a fresh task is handed out at most its limit plus one per expiry; without expiries and successes it is gone if and only if it failed exactly its limit of times, and then it was handed out so often and has a dead-letter row with its key, payload and that attempt count |
| QueueDelivery.StageStep | internal/queue/queue.go:296-327 | each failure moves such a task one attempt on, into the ready set or at its limit into the dead-letter table, and nothing else moves it |
| QueueDelivery.ReachableIsGood | internal/queue/queue.go:262-362 | the states assumed by the run bound are those every in-time run reaches |
| QueueDelivery.ScoresAlwaysMatch | internal/queue/queue.go:315-359 | every writer keeps a ready entry's score equal to its due time |
| QueueDelivery.WorkerTurnIsEarliestDue | internal/queue/queue.go:250-260 | a worker turn starts a handler if and only if some ready task is due, then the earliest; otherwise nothing changes |
| QueueDelivery.ClaimHidesTask | internal/queue/queue.go:268-271 | a claimed task stays in the processing set for the whole visibility timeout unless its handler finishes |
| QueueTiming.EnqueueLeavesEntry | internal/queue/queue.go:40-91 | a task with a free key leaves one entry with its key and payload, due and scored at now + delay, attempt at least zero, its own limit, else the configured one, else ten; with a held key nothing changes |
| QueueTiming.NewTaskWaitsItsDelay | internal/queue/queue.go:65-91 | in every run that ends before now + delay, whatever else happens, that entry is still waiting |
| QueueTiming.NewKeyNotHandedOutEarly | internal/queue/queue.go:250-260 | in every in-time run no handler is started for an accepted key before its delay is over |
| QueueTiming.FailureIsWrittenBackOrBuried | internal/queue/queue.go:296-327 | a failed attempt is written back with its error while attempts are left and waits out its backoff in every run; otherwise its row has its document, attempts and error |
| QueueTiming.FailedKeyNotHandedOutEarly | internal/queue/queue.go:315-321 | in every in-time run a failed key is not handed out again before its backoff is over |
| QueueTiming.ClaimLapses | internal/queue/queue.go:342-362 | a claim can be swept exactly from the end of its visibility timeout, thirty seconds by default, and is then due at once |
| QueueTiming.StoppedHandlersLeaveStores | internal/queue/queue.go:268-292 | a crash or an abandoned handler changes nothing that is stored |
| Breaker.Normalised | internal/resilience/circuit.go:63-82 | any configuration is accepted; valid settings are kept, a missing minimum becomes 1, a ratio that is not positive 0.5, one above 1 becomes 1, a missing cool-off its default |
| Breaker.Cell.ChangeState | internal/resilience/circuit.go:177-194 | a change of state clears the counters and stamps openings |
| Breaker.Cell.Allow | internal/resilience/circuit.go:87-101 | admission is refused exactly while open within the cool-off; otherwise an open breaker becomes half-open |
| Breaker.Cell.Report | internal/resilience/circuit.go:105-140 | reporting is the state machine's report step, ratio test and decay included |
| Breaker.AlwaysBounded | internal/resilience/circuit.go:122-139 | in every reachable state failures and successes together are at most 2m |
| Breaker.DecayDrift | internal/resilience/circuit.go:135-139 | a decay turns 2m+1 outcomes into m+1 and moves the failure ratio by at most 1/(2m+2) |
| Breaker.BackoffWithin | internal/resilience/circuit.go:144-158 | below 2^63 the delay doubles with each attempt, and jitter moves it by at most that fraction |
| Breaker.IdealDoubles | internal/resilience/circuit.go:144-151 | the delay starts at the base, a tenth of a second by default, and doubles with each attempt after the first |
| Breaker.JitterFollowsDraw | internal/resilience/circuit.go:152-158 | a draw of one half gives the plain delay, zero the largest cut, and a larger draw no smaller delay |
| Breaker.NominalExactIff | internal/resilience/circuit.go:144-158 | the 64-bit delay is base * 2^(attempt-1) if and only if that is below 2^63 |
| BreakerOpening.OpensWithin | internal/resilience/circuit.go:128-139 | a closed breaker that can trip opens within 2m+1-total+m*halvings failures in a row |
| BreakerOpening.OneSuccessHoldsItClosed | internal/resilience/circuit.go:128-139 | above the threshold 2m/(2m+1), one counted success keeps it closed through every run |
| BreakerOpening.OpenableIff | internal/resilience/circuit.go:105-140 | some run opens a closed breaker if and only if it counts no success or the threshold is at most 2m/(2m+1) |
| BreakerOpening.FewReportsStayClosed | internal/resilience/circuit.go:128-131 | a breaker that has just closed stays closed until m outcomes are reported |
| BreakerOpening.RefusesWhileOpen | internal/resilience/circuit.go:91-97 | in any interleaving nothing is admitted in [u, u+openFor) after an opening at u |
| BreakerOpening.CoolOffEndsHalfOpen | internal/resilience/circuit.go:87-101 | the first request after the cool-off is admitted and makes the breaker half-open, and so are all others until an outcome is reported |
| BreakerOpening.ProbeDecides | internal/resilience/circuit.go:112-119 | a success then closes the breaker with cleared counters, and it stays closed until m further outcomes; a failure opens it at that moment and everything is refused for another cool-off |
| HttpClient.FinishedCallBalance | internal/resilience/httpwrap.go:64-131 | however calls interleave, a finished call was admitted at most its limit, reported each admission once and returned exactly one of response and error |
| HttpClient.NoAdmissionInCoolOff | internal/resilience/httpwrap.go:64-73 | no interleaving of calls gets an attempt admitted while the cool-off lasts |
| HttpClient.OpeningIsTimed | internal/resilience/circuit.go:183-186 | only a received outcome opens the breaker, and it is stamped with that moment |
| HttpClient.BreakerHearsOutcomes | internal/resilience/httpwrap.go:65-100 | however calls interleave, the breaker is where the requests for admission and the outcomes, success meaning a status below 500, bring it |
| HttpClient.CallsFollowReplies | internal/resilience/httpwrap.go:64-131 | however calls interleave, a call returns its first good reply; else it was refused by the breaker, used up its attempts and ended with its last complaint, or was canceled |
| HttpClient.DefaultBreakerTrips | internal/resilience/httpwrap.go:36-39 | the breaker made for a call without one opens on its first failure and admits again if and only if a second has passed |
| HttpClient.DefaultBreakerNeverOpensIff | internal/resilience/httpwrap.go:36-39 | that breaker is open at no point of a run if and only if no outcome is reported or the first one is a success |
| HttpClient.Do | internal/resilience/httpwrap.go:31-131 | the call ends with a good reply, all attempts spent, a refusal or a cancellation, whichever comes first; it returns that reply or that error, or hands the error of a spent or refused call to the fallback; the breaker sees exactly its attempts |
| HttpClient.AttemptsAt | internal/resilience/httpwrap.go:65-100 | what the breaker sees of a call is, in order, each request at its time and each outcome at its time, a success exactly below status 500 |
| HttpClient.EndingIsUnique | internal/resilience/httpwrap.go:64-131 | what a call meets decides how it ends |
| LeaseLock.AlwaysSafe | internal/lock/redislock.go:38-55 | in every interleaving a running lease is the one stored, and what is stored is some call's lease |
| LeaseLock.MutualExclusion | internal/lock/redislock.go:38-46 | at most one call with a running lease is in its callback |
| LeaseLock.LateReleaseIsHarmless | internal/lock/redislock.go:57-63 | a release never removes a lock whose lease runs for another call |
| LeaseLock.AcquiresIff | internal/lock/redislock.go:39-46 | a try succeeds if and only if no unreleased lease is running |
| LeaseLock.LeaseLastsItsTtl | internal/lock/redislock.go:28-46 | in every run a lease ends the time to live its call asked for, or thirty seconds if that is not positive, after the call entered |
| LeaseLock.OverlapOnlyAfterLease | internal/lock/redislock.go:44-45 | a second call enters beside another only after that one's lease has ended |
| LeaseLock.CallbacksNeverOverlapIff | internal/lock/redislock.go:38-55 | over a whole run no two callbacks overlap if and only if no try comes while a callback runs and every unreleased lease has ended |
| LeaseLock.OverrunOverlaps | internal/lock/redislock.go:44-45 | a concrete run in which a callback outlives its lease and two overlap |
| LeaseLock.LockKey.TrySet | internal/lock/redislock.go:39-42 | the key is set with its expiry exactly when it is free |
| LeaseLock.LockKey.Delete | internal/lock/redislock.go:57-63 | the key is deleted only for the token that holds it |
| LeaseLock.LockKey.Acquire | internal/lock/redislock.go:38-55 | the retry loop takes the key at the first wake at which it is free, or leaves it alone |
| SlidingWindow.StoreIsRecentLog | internal/ratelimit/slidingredis.go:24-39 | for a window below a second or in whole seconds, the stored set after every call is the full log of requests newer than the window; pruning and expiry lose nothing |
| SlidingWindow.AtMostMaxPerWindow | internal/ratelimit/slidingredis.go:41-47 | for such a window, no half-open interval as long as it holds more than max admitted requests |
| SlidingWindow.LimitHoldsIff | internal/ratelimit/slidingredis.go:36-47 | a window keeps that limit for all traffic if and only if it is below a second or in whole seconds |
| SlidingWindow.FractionalWindowOverAdmits | internal/ratelimit/slidingredis.go:36-36 | for every other window, two requests that both pass a limit of one |
| SlidingWindow.AdmittedIff | internal/ratelimit/slidingredis.go:32-47 | for such a window, a request is allowed if and only if the one max places before it, allowed or not, is a window old |
| SlidingWindow.Window.Allow | internal/ratelimit/slidingredis.go:19-48 | one call records the request and reports admission, remaining and reset; a limiter without limits lets everything through |
| Cart.UnitPrice | internal/cart/service.go:198-218 | an item is priced if and only if its product exists and its variant, if any, belongs to it and is in stock; the price is the variant's, else the product's, at least zero |
| Cart.AddKeepsValid | internal/cart/service.go:156-237 | adding keeps subtotal = quantity * price on every line and one line per cart, product and variant |
| Cart.NewLineConsistentIff | internal/cart/service.go:219-234 | a new line is consistent if and only if its quantity survives the conversion to 32 bits or it is free or refused |
| Cart.UpdateKeepsValid | internal/cart/service.go:240-266 | changing a quantity keeps those invariants |
| Cart.UpdateConsistentIff | internal/cart/service.go:258-259 | a changed line is consistent if and only if its quantity survives the conversion to 32 bits or it is free or refused |
| Cart.MergeAllKeepsValid | internal/cart/service.go:375-405 | merging keeps those invariants |
| Cart.RunKeepsValid | internal/cart/service.go:156-405 | every run of adds, updates, removals and merges keeps those invariants |
| CartMerge.AddRaisesQty | internal/cart/service.go:180-234 | adding raises that item's quantity by what is added, prices a new line from the catalogue and touches no other item |
| CartMerge.UpdateSetsQty | internal/cart/service.go:240-266 | an update gives its item the new quantity at the old price and touches no other item of any cart |
| CartMerge.RemoveDropsItem | internal/cart/service.go:269-287 | removing a row from its own cart takes that item out and nothing else; from another cart nothing |
| CartMerge.MergeIsPointwiseMax | internal/cart/service.go:371-405 | after a merge each item has the larger quantity, the user's price on shared items and the guest's on new ones, and every other cart is as before |
| CartMerge.MergeAddsUpIff | internal/cart/service.go:371-405 | a merge adds the two quantities up if and only if one of the carts lacks the item |
| CartMerge.TwoAndThreeMergeToThree | internal/cart/service.go:381-389 | a concrete merge of 2 and 3 that gives 3 |
| CartMerge.MergesArePeak | internal/cart/service.go:371-405 | merging any sequence of guest carts, each read when its turn comes, leaves the largest of all quantities |
| CartMerge.RemergeIsIdle | internal/cart/service.go:371-405 | merging the same guest cart again changes nothing |
| CartMerge.MergeOrderIrrelevant | internal/cart/service.go:371-405 | neither the order nor repetitions of the merged guest carts change any quantity |
| CartService.CartStore.FindItem | internal/db/gen/cart_items.sql.go:73-80 | a lookup finds a matching row if and only if there is one |
| CartService.CartStore.AddItem | internal/cart/service.go:156-237 | adding in place is the model's add; a rejected call changes nothing |
| CartService.CartStore.UpdateQty | internal/cart/service.go:240-266 | updating in place is the model's update; a rejected call changes nothing |
| CartService.CartStore.RemoveItem | internal/cart/service.go:269-287 | removal deletes the row only from its own cart |
| CartService.CartStore.ListItems | internal/db/gen/cart_items.sql.go:129-134 | a listing holds each row of the cart once and nothing else |
| CartService.CartStore.Merge | internal/cart/service.go:347-412 | the merge loop gives every item the larger of the two quantities and keeps the table valid |
| VoucherRules.DiscountWithin | internal/cart/service.go:485-520 | a granted discount is between zero and what the voucher covers, hence at most the cart's total |
| VoucherRules.CartGrantIs | internal/cart/service.go:446-520 | exactly when the cart grants a voucher, and how much: the value or the percentage of the covered sum, within zero and that sum |
| VoucherRules.PreviewGrantIs | internal/voucher/service.go:41-88 | exactly when the preview reports a discount, and how much |
| VoucherRules.EngineMatchIs | internal/voucher/engine.go:92-125 | which items the engine matches, scope by scope |
| VoucherRules.EngineItemCounts | internal/voucher/engine.go:78-90 | the engine's sum takes each positive matching item, wherever it stands |
| VoucherRules.RuleMatchesItem | internal/voucher/engine.go:92-125 | the scope searches compute the engine's matching |
| VoucherRules.EligibleSubtotal | internal/voucher/engine.go:78-90 | the engine's loop computes the eligible sum |
| VoucherRules.EligibleLines | internal/cart/service.go:485-502 | the cart's loop computes its eligible sum, failing on a product that cannot be loaded |
| VoucherAgreement.ItemsAgreeIff | internal/cart/service.go:414-444 | what the engine matches the cart matches, and they agree if and only if the item does not lack a scoping category while its brand is covered |
| VoucherAgreement.ScopedSumsAgreeIff | internal/voucher/engine.go:78-125 | the engine's eligible sum is at most the cart's, equal if and only if no line is of that kind |
| VoucherAgreement.GatesAgreeIff | internal/voucher/engine.go:58-75 | date, quota, personal limit and spend checks agree if and only if a common refusal holds or the two misread limits coincide |
| VoucherAgreement.EvaluatorsAgreeIff | internal/voucher/service.go:41-88 | cart and preview hand out the same discount if and only if both gates are shut, or both open and the two eligible sums get the same (the fixed value is within the smaller sum or the sums are equal; the percentages round alike), or the one that is open grants nothing |
| VoucherAgreement.EvaluatorsAgree | internal/voucher/service.go:41-88 | with the same gate and no differing line, cart evaluation grants d > 0 if and only if the preview reports d |
| VoucherAgreement.PreviewNeverExceedsCart | internal/voucher/service.go:79-87 | the preview never reports more than the cart grants |
| VoucherAgreement.StrandedLineDiffers | internal/voucher/engine.go:103-112 | a concrete line that the cart discounts and the preview refuses |
| Checkout.Compute | internal/pricing/engine.go:22-46 | the pricing loop and clamps compute the summary |
| Checkout.SummaryHolds | internal/pricing/engine.go:30-45 | for any items the discount is capped at the subtotal, tax is on the rest, and the total adds up |
| Checkout.ItemCounts | internal/pricing/engine.go:23-29 | each item counts quantity times price wherever it stands, and nothing without a positive quantity |
| Checkout.OrderTotals | internal/checkout/service.go:113-161 | on consistent lines the order copies them, its subtotal is their sum, the discount is what the voucher grants on them and zero without or on a refusal, shipping is the quoted price or zero, total = subtotal - discount + tax + shipping |
| Checkout.RunThenCheckout | internal/checkout/service.go:106-161 | after every run of cart operations a checkout has those lines, discount and totals, its subtotal is the sum over the cart's rows in the table, and only an empty cart gives no order |
| Checkout.Create | internal/checkout/service.go:106-161 | the checkout loops build exactly that order |
| Payments.AlwaysSound | internal/payment/service.go:70-150 | over every run superseded payments are closed and unpaid, and a paid order takes no more intents |
| Payments.PaymentUniqueness | internal/payment/service.go:66-150 | at most one payment is open, every amount is the order's total, and at most one payment is ever PAID |
| Payments.SettlementBalance | internal/payment/webhook.go:147-220 | settlements equal changes of the latest payment to PAID, one more than changes back exactly while it is PAID |
| Payments.SettledOnceIff | internal/payment/webhook.go:147-148 | an order is settled at most once if and only if the statuses of the notices that reach its payment, read off the events alone, have no PAID, other, PAID subsequence |
| Payments.SettlementsAreHeard | internal/payment/webhook.go:131-220 | the number of settlements is the number of changes to PAID in those notices |
| Payments.NormaliseTable | internal/payment/webhook.go:283-294 | the seven words the provider uses and what they stand for; anything else is PENDING |
| Payments.NoticeDecides | internal/payment/webhook.go:131-227 | a fitting notice sets the latest payment's status; a change to PAID leaves the order Paid and settles it, a failing notice leaves a pending order Canceled, every other leaves the order |
| Payments.SettlementLeavesPaid | internal/payment/webhook.go:173-176 | in every state the order is Paid right after a settlement |
| Payments.BecomesCanceledIff | internal/payment/webhook.go:221-227 | an order becomes Canceled if and only if it is canceled or gets a failing notice while pending, or is moved there by a guarded update |
| Payments.OrderFollowsNotices | internal/payment/webhook.go:131-227 | over every run of intents and notices the order is Paid if and only if a PAID notice reached its payment, else Canceled if and only if a failing one did |
| Payments.IntentOpensPayment | internal/payment/service.go:70-150 | an intent adds a pending payment of the total exactly when none is paid or can still be paid, with the provider's expiry, else the given time or fifteen minutes |
| Payments.RefundThenPaidSettlesTwice | internal/payment/webhook.go:283-294 | a concrete run with a refund notice that settles an order twice |
| Payments.OrderPayments.CreateIntent | internal/payment/service.go:66-153 | an intent reuses the open payment or adds one, and is refused for a paid order, a settled status or a wrong amount |
| Payments.OrderPayments.HandleWebhook | internal/payment/webhook.go:131-228 | a webhook updates the latest payment, settles on a change to PAID and cancels a pending order on failure |
| Settlement.StockAfter | internal/db/gen/orders_settlement.sql.go:14-18 | a settlement leaves each variant at max(0, stock - total ordered of it) |
| Settlement.LineOrderIrrelevant | internal/payment/webhook.go:188-199 | the order of the lines does not matter to the stock |
| Settlement.UsageAccounting | internal/voucher/service.go:91-124 | over any settlements used_count rises by one per new usage row until the limit stops it, and rows are kept |
| Settlement.SettlementRecords | internal/voucher/service.go:91-124 | a settlement with a known, unused voucher records its user and amount and raises its count by exactly one below its limit; any other leaves vouchers and usages alone |
| Settlement.FirstBillIsRecorded | internal/voucher/service.go:108-123 | over any settlements an order's usage row is that of the first bill naming the voucher and the order |
| Settlement.UsersAreSettledOrders | internal/voucher/service.go:91-124 | over any settlements the orders with a usage row are exactly those that had one or were settled with the voucher |
| Settlement.LimitHolds | internal/db/gen/vouchers.sql.go:48-54 | a count within the usage limit stays within it |
| Settlement.RepeatedSettlementCountsOnce | internal/voucher/service.go:108-123 | settling one order any number of times gives one usage row and at most one increment |
| Settlement.Ledger.RecordUse | internal/voucher/service.go:91-124 | recording in place is the model's voucher use |
| Settlement.Ledger.SettleOrder | internal/payment/webhook.go:181-213 | the stock loop and the voucher call are the model's settlement |
| OrderLifecycle.PaymentHistoryEffects | internal/payment/webhook.go:131-213 | over a whole payment history an ordered variant loses its quantity once per change to PAID, any other variant nothing, and the count of the order's voucher, if any, rises at most once |
| Fulfilment.RankNeverFalls | internal/db/gen/orders_status.sql.go:25-38 | in every interleaving of guarded writes, with stale reads, order rank never falls and CANCELED is neither entered nor left |
| Fulfilment.AdminNeverCancels | internal/order/admin_handlers.go:61-64 | a patch to CANCELED never takes effect |
| Fulfilment.PatchTakesEffectIff | internal/order/admin_handlers.go:47-72 | a patch takes effect if and only if it moves a paid order one place forward, and then the order is at the target |
| Fulfilment.OrderFollowsLog | internal/shipping/service.go:96-167 | with tracking alone the log is nondecreasing, the status is its last event's, and the order is DELIVERED if and only if the log has OUT_FOR_DELIVERY and DELIVERED |
| Fulfilment.LogIsAccepted | internal/shipping/service.go:96-167 | the log is exactly the events that stay put, go one stop on, or from SHIPPED to DELIVERED, so the events alone decide the order |
| Fulfilment.SkippedStopIsStuck | internal/shipping/service.go:241-255 | a parcel delivered straight from SHIPPED leaves its order SHIPPED under every further event |
| Fulfilment.Desk.Create | internal/shipping/service.go:49-93 | a shipment is created for a paid or packed order that has none, which becomes PACKED |
| Fulfilment.Desk.AppendEvent | internal/shipping/service.go:96-148 | an allowed event is logged, moves the shipment and synchronises the order |
| Fulfilment.Desk.PatchStatus | internal/order/admin_handlers.go:47-74 | a patch answers success exactly when it changed the order |
| WebhookDelivery.AlwaysSound | internal/notify/webhook.go:134-240 | the attempt stays below the maximum and a delivery has one dead-letter row exactly while dead-lettered |
| WebhookDelivery.SettledIsFinal | internal/notify/webhook.go:125-127 | DELIVERED and DLQ are left only by a replay |
| WebhookDelivery.EventDecides | internal/notify/webhook.go:125-202 | a successful attempt leaves the row DELIVERED, a failed one FAILED and due after its delay or, at the last attempt, dead-lettered; a replay starts it over |
| WebhookDelivery.AttemptsIff | internal/notify/webhook.go:110-130 | delivery by id sends for every due unsettled row, the poll only for pending and failed ones |
| WebhookDelivery.DeliveredIff | internal/notify/webhook.go:110-240 | after every run a delivery is DELIVERED if and only if an attempt since the last replay succeeded, and dead-lettered if and only if one failed at the last attempt |
| WebhookDelivery.FirstDelay | internal/notify/webhook.go:204-214 | the first delay is the base, five seconds by default |
| WebhookDelivery.AlwaysSpaced | internal/db/gen/webhooks.sql.go:435-443 | a delivery becomes due no sooner than base * (2^attempt - 1) seconds after its first failure |
| WebhookDelivery.DeliveryLifecycle | internal/notify/webhook.go:110-240 | over every run attempt and dead-letter rows are as above, and if the delays fit dead-lettering comes at least base * (2^(max-1) - 1) seconds after the first failure |
| WebhookDelivery.DistanceKeptIff | internal/notify/webhook.go:198-214 | every run of a delivery keeps that distance if and only if its longest delay is below 2^31 seconds |
| WebhookDelivery.DelayExactIff | internal/notify/webhook.go:198-214 | the stored delay, computed in 64 bits and cut to 32, is base * 2^attempt if and only if that is below 2^31, and is never longer |
| WebhookDelivery.LongBackoffWraps | internal/notify/webhook.go:198-214 | a concrete new delivery whose first delay wraps, so that it is tried twice and dead-lettered in the same second |
| WebhookDelivery.ThirtiethDelayWraps | internal/notify/webhook.go:204-214 | with the default base the thirtieth delay is stored as a negative number |
| WebhookDelivery.ScheduleAdds | internal/notify/webhook.go:59-80 | scheduling gives every endpoint one delivery, pending, at attempt zero, due at once and with six attempts by default, and leaves existing ones as they are |
| WebhookDelivery.RescheduleIsIdle | internal/notify/webhook.go:69-73 | scheduling the same event again adds nothing |
| WebhookDelivery.Dispatcher.Schedule | internal/notify/webhook.go:47-82 | the loop over endpoints is the model's scheduling |
| WebhookDelivery.Dispatcher.DeliverById | internal/notify/webhook.go:110-202 | a delivery by id is the model's deliver event |

## Left out

- Gaps between the Redis calls of one queue step, failing Redis and SQL writes other than a failing dead-letter insert, and two workers sweeping at once.
- JSON encoding of queue messages, sanitising of kinds, the worker's tickers, semaphore and soft deadline.
- The value of the retry delay inside the queue: it is a parameter of the failure event; the backoff formula is proved on its own.
- The rounding of the lock's time to live to milliseconds, the lock's unscripted deletion when the server does not know scripts, and the limiter's path on a Redis error.
- 64-bit overflow of money, and floating-point rounding of scores and ratios.
- Trimming and case folding of voucher codes, kinds and provider statuses; lookups of a voucher by code.
- WebhookDelivery.DeliveryLifecycle: assumes that attempts on one delivery do not overlap and that writes to its row succeed.
- Re-enqueueing of failed webhook deliveries, the replay guard that answers for an endpoint, signatures and URL checks.
- Cart expiry, ownership and voucher attachment; deletion of products and variants under a cart line.
- Rolling back a checkout or settlement transaction, and concurrent settlements of one order.
- HTTP handlers, authentication, tenants, caches, metrics, tracing, catalogue listing, reviews, favourites, addresses and analytics: only thin wrappers over SQL.
