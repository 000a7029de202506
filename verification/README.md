# Subscription bridge: a verified model

The bridge keeps subscriptions in step with two payment processors, charges Adyen renewals itself and tells a consumer about
every change. This project models its fenced, transactional core and proves what it guarantees in every state of every
interleaving of its workers.

Three layers fit together.

* **Values.** `Model` holds the rows of the store and what each store operation does to them, `Transition` the subscription
  state machine, `Engine`, `Scheduler` and `Notify` the transactions as functions from one store to the next. A transaction
  that fails yields an error and no store.
* **Methods.** `MemoryStore` is the in-memory store as a class whose methods update maps in place with loops over the rows;
  `EngineService` and `WorkerService` are the engine, the scheduler and the notifier as methods over it, with snapshot and
  restore around each transaction. Every method is proved to do exactly what the function of the value layer says; the
  straight-line ones among them are not listed below.
* **Steps.** `System` lets any number of workers interleave: each step is one transaction or one network call, and a worker
  may stall for ever or vanish between two steps. `Enabled` says what the environment promises.

The environment promises this much: new identifiers of actions and of the processing of events are fresh; the
configuration is fixed; the provider has one verdict for every idempotency key and reports it truthfully in replies,
webhooks and operator evidence; a Stripe event does not name a checkout of the other processor; the clocks that first
activations read are later than the zero time. Clocks need not be monotone, and claim tokens need not be distinct.

The invariants are built up in `ChargeSafety` (why a renewal is charged at most once), `Books` and `Ledger` (why the outbox
agrees with the state), `Growth` (what no step undoes, and who takes claims), `Arrivals` and `Reads` (why provider reads are
linear) and `Payments` (why every served month was paid for). The modules named after steps show that each transaction keeps
them, `Runs` that all runs do, and these draw the conclusions:

* `Guarantees`: charging, the outbox, billing periods, checkouts and reads;
* `Fencing` and `Claims`: who may finish what was claimed, and how long a claim keeps others out;
* `Expiry`, `Cancellations` and `Endings`: what becomes of an expiry, who cancels a subscription, and when a canceled
  subscription has the expiry that ends it;
* `DueTimes`: when work is taken up, never before it is due and never refused once it is;
* `Billing`, `Settlements` and `RefusalCodes`: whom a charge bills, how it ends, and which refusals are final;
* `Processing`, `Verdicts`, `StripeReports` and `AdyenReports`: what a processed webhook leaves behind;
* `Deliveries`: what an answer of the consumer makes of an event, and when it is sent again;
* `Checkouts` and `StoreRules`: what becomes of a checkout, and what the tables accept;
* `Dunning` and `Arrears`: what a refused charge leaves behind, and which past-due subscriptions have work left;
* `Announcements` and `Regressions`: when a change is committed, and when a webhook moves a period back;
* `Consumer`: what the consumer ends up with.

Four documented properties hold only sometimes. `Promises` and `Dunning` give the condition for one decision or
transaction, `Endings`, `Arrears` and `Regressions` for whole runs, and `Witnesses`, `Stranding` and `Relapse` show
runs from the empty system, built with the scenes of `Scenarios`, in which each of them fails. `Calendar`,
`Timestamps`, `Encodings` and `Signatures` are the arithmetic and the codecs underneath, `Protocol` the
consumer-visible validation.

Where the code and its documentation disagree the model follows the code: a restored Stripe subscription keeps its
pending expiry; a cancellation or a last refusal whose expiry key is taken by a finished action gets no expiry, which
can happen to subscriptions of either processor; an observation may move a Stripe period back; a canceled subscription
may become past due; Unix seconds accept a minus sign before zeros.

A contract that makes sense without the definitions of its predicates hides them (`hide *`), and so do proofs that do
not need them; this keeps each proof obligation small and changes nothing about what is assumed or promised.

`dafny verify dfyconfig.toml` checks everything.

## Model

| member | source | states |
|---|---|---|
| Guarantees.AtMostOneCharge | internal/scheduler/scheduler.go:170-440 | In every state of every run, of everything ever sent to the provider for one renew action, or for one month of one subscription, at most one idempotency key is authorised, and it was sent with one body |
| Guarantees.ExactReplay | internal/scheduler/scheduler.go:203-332 | Everything ever sent is the request of a stored, submitted attempt; one idempotency key always travels with one endpoint and one body |
| Guarantees.SentAtPlanPrice | internal/scheduler/scheduler.go:191-254 | Every request charges the configured merchant, currency and amount of the subscription's plan, under the key built from the reference in its body |
| Guarantees.RequestsStay | internal/store/memory.go:815-843 | Between any two states of a run an attempt keeps its request, number and period, its first-submission time and deadline once set, and stays authorised once authorised |
| Guarantees.DunningBounded | internal/scheduler/scheduler.go:182-190 | Attempts of an action are numbered 1..n, each number once, and n is at most max(1, number of configured delays) |
| Guarantees.DunningOrder | internal/scheduler/scheduler.go:412-438 | A new attempt is prepared only when every earlier attempt of the action is refused, by the provider too, with a retryable code and a number below the number of delays |
| Guarantees.RightNextAction | internal/engine/engine.go:275-295 | An active Adyen subscription has exactly one claimable renew action and it targets the current period end; no subscription ever has two |
| Endings.CancellationOnRecord | internal/engine/engine.go:248-323 | In every state of every run, a canceled subscription was canceled by a step, and its version has not changed since |
| Endings.ExpiryOfCancellation | internal/engine/engine.go:296-316 | For every run: a canceled subscription has the pending expiry keyed at its period end if and only if, in the state in which the cancellation was committed, that key was free or its action still pending |
| Endings.ExpiryUnlessWithdrawn | internal/engine/engine.go:305-315 | Documented: a canceled subscription has a pending expiry at its period end. In every state of every run it has one if and only if no canceled action stands under that key |
| Endings.WithdrawnWasDunning | internal/engine/engine.go:754-778 | For Adyen a canceled action under that key was the expiry of a dunning of this subscription, given up by an earlier step at a clock that lies exactly the dunning delay before the period end |
| Endings.AdyenExpiryScheduled | internal/engine/engine.go:754-778 | A canceled Adyen subscription has its pending expiry unless some earlier step gave up a dunning of it with an expiry due exactly at the period end |
| Expiry.StepSpares | internal/engine/engine.go:275-321 | Every step leaves a pending expiry as it is, or withdraws it because its Adyen subscription is renewed or its subscription canceled for another period end, or has expired the subscription |
| Expiry.PendingExpiryStays | internal/engine/engine.go:296-316 | A subscription with a pending expiry that has not expired keeps it unchanged through any number of steps until an event moves the subscription on |
| Cancellations.StepLawful | internal/engine/engine.go:296-323 | Every step: a subscription that becomes canceled keeps no waiting renewal and gets its expiry exactly when the key is free or its action pending; a new expiry waits for its target and ends the period of a canceled subscription or the dunning that the step gave up |
| Guarantees.BookkeepingFollowsStatus | internal/engine/transition.go:87-171 | past_due has a past-due time; canceled has canceled_at equal to state_changed_at; active and trialing have both clear and no block; a block exists exactly with a reason; the cancel flag exactly with canceled |
| Guarantees.OutboxAgrees | internal/engine/engine.go:248-274 | A subscription's events are exactly the versions 1..state version, each once; the snapshot equals the snapshot of the latest callback and validates |
| Guarantees.VersionTellsChange | internal/engine/engine.go:248-274 | A step changes what the consumer sees of a subscription if and only if it raises the version, and then by exactly one; an expired subscription never changes |
| Guarantees.EventLanguage | internal/engine/transition.go:31-171 | In version order the first event and only the first is an activation, nothing follows an expiry, and every event may follow the status its predecessor left |
| Guarantees.PeriodsTile | internal/engine/transition.go:139-171 | For Adyen a renewed event starts exactly at the previous period end, lasts one calendar month and is backed by an authorised attempt for that month; no other event moves the period |
| Guarantees.BoundariesIncrease | internal/scheduler/scheduler.go:236-237 | Across any two callbacks of an Adyen subscription the period end never moves back, and a renewal never overlaps an earlier period |
| Guarantees.AttemptRenewsOnce | internal/engine/transition.go:139-171 | Two renewed events of one Adyen subscription are never backed by one and the same attempt: each attempt advances the period at most once |
| Guarantees.PaidMonthsServed | internal/engine/engine.go:706-729 | While an Adyen subscription is active, its attempts on record as authorised are exactly those the provider authorises for months that the period has moved past |
| Guarantees.CheckoutsStayBound | internal/engine/engine.go:594-610 | Checkouts and subscriptions name each other one to one, and a checkout once bound keeps its subscription |
| Guarantees.BindingForever | internal/engine/engine.go:594-610 | A checkout that names a subscription names it in every later state of the run |
| Guarantees.ReadsLinear | internal/engine/engine.go:409-453 | Committed observations under one processing key carry strictly rising fences, and each was fetched after the one before was committed |
| Runs.RunInv | internal/scheduler/scheduler.go:39-47 | The whole invariant holds in every state of every interleaving of all workers, crashes and stalls included |
| Runs.RunGrows | internal/store/memory.go:291-433 | Between any two states of a run nothing is undone: fences rise, finished actions and closed or delivered events stay as they are |
| Guarantees.LatestTells | internal/engine/engine.go:326-345 | In every state of every run the latest event of a subscription carries its reference, checkout, plan, version, status and times, and these parse back |
| Consumer.ConsumerConverges | internal/protocol/types.go:311-325 | A consumer that keeps the highest version ends with the snapshot of the bridge after any reordered, repeated or incomplete deliveries that include the latest callback |
| Consumer.Converges | internal/protocol/types.go:311-325 | The same for any sequence of callbacks bounded by a latest one |
| Fencing.NewestClaimFinishes | internal/store/memory.go:626-684 | Over every run: whoever finishes an action under a fence no newer than one on record in an earlier state held its claim, under that fence, in that state |
| Fencing.NewestClaimReports | internal/store/memory.go:291-379 | The same for deliveries, whether they are completed, retried or dead-lettered |
| Fencing.NewestLeaseReleases | internal/store/memory.go:461-530 | The same for giving back a processing lease |
| Fencing.FinishedOnce | internal/store/memory.go:665-684 | After a finish, no finish under the same fence ever succeeds again |
| Fencing.ChargesExclusive | internal/scheduler/scheduler.go:279-293 | Along a run, a worker whose action is under a live claim of somebody else gets nothing and changes nothing |
| Fencing.ReportedOnce | internal/store/memory.go:322-379 | A delivery is completed, retried or dead-lettered at most once per fence |
| Fencing.DeliveredStays | internal/store/memory.go:334-433 | Payload, id, version and type of an event never change, fence and attempt count never fall, and a delivered event never changes |
| Fencing.AttemptsFenced | internal/store/memory.go:291-379 | The attempt count plus one for a delivery under way never exceeds the fence |
| Fencing.ReleasedOnce | internal/store/memory.go:516-530 | A processing lease is given back at most once per fence |
| Claims.ActionTakenTwice | internal/store/memory.go:626-706 | Over every run: if two steps claim one scheduled action and the later one by a clock before the lease of the first runs out, then in between the action was finished or force-finished and its claim given back, or it was claimed by a clock at or past that lease |
| Claims.EventTakenTwice | internal/store/memory.go:291-405 | The same for deliveries: in between the delivery was reported or the event abandoned, or it was claimed by a clock at or past the lease |
| Claims.LeaseTakenTwice | internal/store/memory.go:461-530 | The same for processing leases: in between the lease was given back, or taken by a clock at or past its end |
| Claims.OtherEvent | internal/engine/engine.go:373-406 | Over every run no processor event is taken up twice |
| Claims.BlockedUntilLifted | internal/store/memory.go:636-641 | Over every run: from the moment a subscription is blocked, none of its renewals is claimed until some step has lifted the block |
| StepSafety.StepAdvance | internal/store/memory.go:626-706 | A step that is no delivery step and neither receives nor leases a processor event balances the books, undoes nothing, touches no stored delivery, takes no processing lease, and takes no action but the one it claims |
| Arrears.RefusalHandled | internal/scheduler/scheduler.go:412-437 | Over every run, whoever learns of a refusal, the charging worker, a webhook or an operator: another refusal than the last has the action wait for the delay of that attempt, unless it was finished before; the last one leaves the action finished, and the expiry keyed at the dunning end is pending if and only if that key was free or its action still pending |
| Arrears.ExpiryOfDunning | internal/engine/engine.go:753-778 | Documented: one expiry after the last refusal, which is then carried out. For every run: as long as the subscription does not change after the last refusal, that expiry is pending if and only if the key was free or its action pending when the refusal was recorded |
| Arrears.DunningUnlessWithdrawn | internal/engine/engine.go:753-778 | In every later state, whatever happens, unless the subscription has expired: that expiry is pending if and only if no withdrawn action stands under its key |
| Arrears.PastDueWork | internal/engine/engine.go:275-316 | Over every run: a past-due Adyen subscription has its renewal for the current period end on record, and a claimable renewal or a pending expiry if and only if that renewal is claimable or one of its expiries was not withdrawn; when it has neither, the renewal was handed over, or the expiry that the cancellation or the last refusal asked for was withdrawn |
| Relapse.DunningWithoutExpiry | internal/engine/engine.go:770-776 | A run whose last step records the last refusal of an attempt and leaves the subscription past due, not blocked, with neither a claimable renewal nor a pending expiry |
| Dunning.StepDunned | internal/scheduler/scheduler.go:412-437 | Every step: a refused attempt is dealt with as dunning demands, and a renewal of a subscription that is past due afterwards stays claimable, or was handed over, or was refused for the last time |
| Dunning.RefusalContinues | internal/engine/engine.go:753-778 | For a refusal learned from outside, on any store with well-formed actions: the last refusal finishes the action, and the expiry is pending if and only if its key was free or its action pending; another one has the action wait for the delay |
| Dunning.DeclineContinues | internal/scheduler/scheduler.go:412-437 | The same for a refusal that the charging worker itself is told |
| DueTimes.FirstChargeWhenDue | internal/store/memory.go:579-623 | Over every run: the first charge of a renewal is prepared by a clock at or past the end of the current period, never before |
| DueTimes.ExpiryWhenDue | internal/store/memory.go:579-623 | Over every run: an expiry is carried out by a clock at or past its target, never before |
| DueTimes.RetryWhenDue | internal/scheduler/scheduler.go:412-423 | Over every run: after a refusal that may be tried again and until the next one of that renewal, the pending renewal is not taken up by a clock before the delay of the refused attempt has passed; taken up while not pending, it is running under a lease that has run out, because a worker took it in between |
| DueTimes.RunDated | internal/engine/engine.go:275-316 | In every state of every run a pending expiry is due at its target, and a renewal without an attempt at its target too |
| DueTimes.RenewalOffered | internal/store/memory.go:579-623 | Whenever an unblocked renewal waits and is due, or is running under a lease that has run out, a free scheduler can take a renewal up |
| DueTimes.ExpiryOffered | internal/store/memory.go:579-623 | The same for expiries |
| DueTimes.ChargeGranted | internal/store/memory.go:626-654 | A picked charge is granted if and only if nobody has finished or blocked it and no lease on it is running; it then runs under the token of the worker for the configured time, 120 seconds by default |
| DueTimes.EventGranted | internal/store/memory.go:461-493 | The processing of an event is granted if and only if it is known and not closed and no other event is being processed under its key by an unexpired lease; the lease is then exactly the one asked for |
| Billing.SentToShopper | internal/scheduler/scheduler.go:191-254 | In every state of every run, everything sent goes to the configured endpoint and bills the shopper reference of the stored subscription, or an empty one when there is none |
| Billing.SentWithCard | internal/scheduler/scheduler.go:191-254 | Everything sent carries the payment method that was on record in the state in which an earlier step prepared the attempt, for an unblocked subscription, its plan at that time and the month after its period at that time |
| Billing.AddedAsks | internal/scheduler/scheduler.go:170-270 | In every run attempts are added by preparing steps only, and ask for what is on record at that moment |
| RefusalCodes.FinalExactly | internal/engine/refusal.go:6-19 | A refusal code is final if and only if it spells one of the fourteen names: white space around a word of the same length, letters equal up to case, blanks for underscores |
| RefusalCodes.HopelessLast | internal/engine/engine.go:754-778 | A refusal is treated as the last one if and only if its code is such a spelling or its attempt has used up the delays |
| RefusalCodes.NothingAfterFinal | internal/scheduler/scheduler.go:412-437 | Over every run: once anybody records a refusal with such a spelling, or one that used up the delays, no attempt of that renewal is ever added and the renewal never claimed |
| StripeReports.ReportFollowed | internal/engine/engine.go:500-575 | In every run, a processed Stripe webhook about a stored subscription leaves its row as reported: expired when deleted, canceled at once or reported expired; on the reported plan when active; canceled when it is to end with its period; past due, or active; with the reported period; an expired row and all other rows stay |
| StripeReports.ReportCreates | internal/engine/engine.go:518-546 | In every run, a processed Stripe webhook about no stored subscription creates the one of its checkout exactly when Stripe serves it, from what is reported |
| StripeReports.UnknownPriceSetAside | internal/engine/engine.go:423-453 | A report with an unknown price changes no record; its event is quarantined |
| Processing.WebhookEnds | internal/engine/engine.go:423-453 | In every run the last step of a webhook changes nothing at all, or closes its event and gives its lease back, and records change only if the event is processed |
| Verdicts.DecideOutcome | internal/engine/transition.go:31-171 | Which row each observation leads to: for every row and observation a table of status, period, plan and bookkeeping fields, without the branches of the decision |
| AdyenReports.FirstPaymentStored | internal/engine/engine.go:577-670 | In every run, a processed first payment creates the subscription of its checkout for a month with exactly the payment method it carries, or gives an unexpired one that method and lifts its block |
| AdyenReports.ChargeReportFollowed | internal/engine/engine.go:672-751 | In every run, a processed renewal webhook about an undecided attempt records it as authorised and serves its month, or as refused with the subscription past due; about a decided one it changes no attempt, row or action |
| AdyenReports.ContractEnds | internal/engine/engine.go:796-826 | In every run, a processed end of a contract cancels, to the end of its period, the one subscription that its payment names as first payment, as charge, or as both, and changes no other row |
| Settlements.ReplyRecorded | internal/scheduler/scheduler.go:338-439 | In every run, a recorded reply still held the claim of its charge and is recorded for what it is: paid and served, refused and past due, or open and looked at again within a minute |
| Settlements.OpenUntilDeadline | internal/scheduler/scheduler.go:114-166 | In every run, a charge with an open outcome is submitted again until the deadline counted from its first submission, and handed over after it, not before |
| Settlements.RunTimed | internal/scheduler/scheduler.go:279-293 | In every state of every run an attempt has a deadline exactly from its first submission on, as long after it as configured, six days by default |
| Settlements.DecisionRecorded | internal/engine/engine.go:847-949 | In every run, a decision of an operator is about an attempt that is uncertain or in review, and is recorded and audited as paid, served and unblocked, as refused and past due, or as given up and expired |
| Settlements.EndAskedFor | internal/engine/engine.go:828-845 | In every run, a cancellation that goes through ends the named subscription with its period, an immediate end expires it, and no other row changes |
| Deliveries.AnswerRecorded | internal/notify/notify.go:79-115 | In every run, an answer under the current claim delivers the event for 200 to 299, dead-letters it for the 4xx codes other than 408, 425 and 429, and otherwise leaves it pending for the time that was set; an answer under a lost claim changes nothing |
| Deliveries.DeliveredWasConfirmed | internal/notify/notify.go:86-89 | In every state of every run a delivered event was confirmed: an earlier step of its claimant recorded an answer of 200 to 299 |
| Deliveries.NoneForgotten | internal/store/memory.go:251-433 | In every state of every run a pending event has a time at which it is sent |
| Deliveries.SentWhenDue | internal/store/memory.go:290-319 | An event is sent only when pending, due and under no running lease, and then under a lease of its own |
| Deliveries.ResentWhenDue | internal/notify/notify.go:101-115 | Over every run: after a failed delivery an event is not sent before the time that was set, unless it was given back in between |
| Deliveries.DeliveryOffered | internal/store/memory.go:290-319 | Whenever a pending event is due and under no running lease, a free notifier can take an event up |
| Deliveries.AbandonOutcome | internal/store/memory.go:382-405 | Abandoning gives up exactly the pending event that is named |
| Deliveries.RequeueOutcome | internal/store/memory.go:408-433 | Requeuing has exactly a dead-lettered or abandoned event delivered again, at once |
| Deliveries.ReplayOutcome | internal/engine/engine.go:952-969 | Replaying leaves a pending event as it is, requeues a dead-lettered or abandoned one, and fails for a delivered one |
| Checkouts.StartExactly | internal/engine/engine.go:67-176 | A request starts an unbound checkout; a known one is resumed by exactly the same request until it is over, and never changed |
| Checkouts.AcceptExactly | internal/engine/engine.go:67-176 | An accepted session waits under the identifier of the processor and keeps what it is bound to |
| Checkouts.SweepExactly | internal/store/memory.go:157-169 | A sweep expires exactly the started or accepted checkouts whose time has come |
| Checkouts.ActivationFollowed | internal/engine/engine.go:1009-1032 | In every run an activation changes nothing, or gives an unbound checkout an active subscription for a month from now |
| StoreRules.CheckoutAccepted | internal/store/memory.go:117-131 | A checkout is stored if and only if it is new and identifiers and idempotency keys stay unique |
| StoreRules.SubscriptionAccepted | internal/store/memory.go:171-185 | The same for subscriptions and their checkouts |
| StoreRules.EventAccepted | internal/store/memory.go:251-264 | The same for events and the versions of a subscription |
| StoreRules.ActionAccepted | internal/store/memory.go:532-544 | The same for actions and their keys |
| StoreRules.AttemptAccepted | internal/store/memory.go:734-749 | The same for attempts and their references, keys and numbers within a period |
| Promises.RestorationCancelsExpiry | internal/engine/engine.go:275-295 | Documented: reversing a cancellation cancels the pending expiry. The code does so if and only if the subscription is billed through Adyen |
| Promises.CancellationSchedulesExpiry | internal/engine/engine.go:296-316 | The follow-up work of a cancellation leaves a pending expiry at the period end if and only if the key is free or its action is still pending |
| Promises.PeriodEndRegresses | internal/engine/transition.go:31-79 | Documented: an observation that moves the period end back is rejected. For every good row and every observation of an earlier end: it is decided, with that end, if and only if the row has not expired, the observed period is in order and its branch is no no-op for the status; every other one is a no-op or refused for its period |
| Promises.OnlyEarlierEndsRegress | internal/engine/transition.go:31-79 | No other observation moves the end back |
| Regressions.RegressionInRun | internal/engine/engine.go:500-575 | In every run, a Stripe webhook about an earlier end moves the stored end back if and only if its event and lease are still held, its price is known, its observation regresses in that sense and the change can be announced |
| Regressions.WebhookRegresses | internal/engine/engine.go:423-453 | In that case the end is the observed one; otherwise the row stays as it is |
| Witnesses.RestoredStripeStillExpires | internal/engine/engine.go:275-295 | A run from the empty system in which a Stripe subscription that was canceled and restored for a later period is active and a step expires it before its period ends |
| Witnesses.SwallowedConflict | internal/engine/engine.go:305-315 | A run in which a subscription is canceled, restored for a later period, canceled, restored for the first period again and canceled, and has no pending expiry |
| Stranding.AdyenStranded | internal/engine/engine.go:754-778 | A run in which an Adyen subscription is canceled and has no pending expiry: its renewal withdrew a dunning expiry that was due at the end of the new period |
| Witnesses.RegressionReached | internal/engine/transition.go:139-171 | A run with a webhook whose commit moves the period end back |
| Witnesses.RenewalReached | internal/scheduler/scheduler.go:170-440 | A run in which one charge is sent, authorised and recorded, and the Adyen subscription renewed for the month it pays for |
| Announcements.CallbackValid | internal/protocol/types.go:183-257 | A callback is valid if and only if its event, checkout and subscription have proper identifiers, the plan is proper, its three times have four-digit years, the period is in order, the version is at least 1 and the event fits the status |
| Announcements.CommitsExactly | internal/engine/engine.go:248-274 | A change is committed if and only if its callback is valid, its event identifier and version are new, and its row exists, or, when created, neither its reference nor its checkout has a subscription |
| Transition.DecideAdvances | internal/engine/transition.go:31-171 | Every change decided on a good row is a good row one version on, with the same identity, a visibly different content, and an event that may follow |
| Transition.TransitionLanguage | internal/engine/transition.go:31-171 | An event may follow a status if and only if some observation brings it about |
| Transition.RepeatedObservations | internal/engine/transition.go:31-79 | Re-applying one observation, raw or with the recomputed Stripe event type, any number of times consumes at most two versions |
| Transition.ChangesAtEveryClock | internal/engine/transition.go:31-79 | Whether an observation changes a row, and whether it is a no-op, is the same at every clock |
| Transition.SettledForever | internal/engine/transition.go:31-79 | An observation that changes nothing once changes nothing at any later time, however often it is repeated |
| Transition.RankDrops | internal/engine/engine.go:547-574 | Each application of an observation is a no-op or lowers a rank that starts at two or less |
| ChargeOutcomes.PaidDecision | internal/engine/transition.go:139-171 | A payment for the month after the current period renews exactly that month, keeps the plan and clears the block, unless the subscription has expired |
| Calendar.ComputeAddCalendarMonths | internal/protocol/time.go:107-125 | The normalising loops compute the closed form for every integer number of months |
| Calendar.OneMonth | internal/protocol/time.go:107-125 | One month lies 28 to 31 days ahead at the same time of day |
| Calendar.RenewalsAgainstJump | internal/protocol/time.go:107-130 | n single months against one jump of n months: same month and time of day, never later, at most 3 days earlier, equal when the day is at most 28 |
| Calendar.CivilUnique | internal/protocol/time.go:107-130 | A civil date and time of day denote one instant and the other way round |
| Timestamps.CanonicalTimestamps | internal/protocol/time.go:15-39 | ParseUTC accepts a text with an instant if and only if the year has four digits and the text is what FormatUTC prints |
| Timestamps.FormatInjective | internal/protocol/time.go:15-18 | Different instants print differently, in any year |
| Timestamps.CanonicalUnixSeconds | internal/protocol/time.go:41-68 | Without a minus sign, Unix seconds are accepted if and only if they are what CanonicalUnix prints, within int64 |
| Timestamps.MinusZero | internal/protocol/time.go:41-60 | With a minus sign a text is accepted if and only if only zeros follow, and it is then not canonical |
| Timestamps.MinusZeroAccepted | internal/protocol/time.go:41-60 | A text with a minus sign that is accepted as zero |
| Timestamps.ActionKeyInjective | internal/protocol/ids.go:96-102 | The hashed text of an action key determines reference, type and target |
| Protocol.CallbackSnapshotValid | internal/protocol/types.go:182-325 | The snapshot of a valid callback is valid |
| Protocol.OpaqueIdExactly | internal/protocol/identifiers.go:13-33 | An identifier is its prefix and, up to 160 characters in all, at least one letter, digit, underscore or hyphen |
| Protocol.PlanIdExactly | internal/protocol/identifiers.go:50-60 | An ASCII plan identifier is valid if and only if it has at most 128 characters that are not all white; none that is longer is valid |
| Encodings.DecodeOfEncode | internal/hmac/token.go:41-60 | Unpadded base64url decodes every byte string from its encoding |
| Encodings.UnhexExact | internal/hmac/keys.go:66-91 | Lowercase hexadecimal is a bijection |
| Signatures.SignatureExact | internal/hmac/keys.go:66-91 | The only accepted signature of a message is the one that is printed |
| Signatures.ParsePairingRoot | internal/hmac/keys.go:19-38 | A pairing root is accepted if and only if it is the lowercase hexadecimal of 32 bytes, which it yields |
| Signatures.CheckDigits | internal/hmac/keys.go:73-82 | The scan finds whether all characters are lowercase hexadecimal digits |
| Signatures.PartsExact | internal/hmac/token.go:25-38 | Splitting at the one separator yields two parts if and only if the text is their concatenation and neither holds the separator |
| Signatures.TokenExact | internal/hmac/token.go:12-60 | A token is accepted with a payload if and only if it is the token printed for it |
| Signatures.ComponentsExact | internal/hmac/header.go:75-113 | Components are (ts, signature) if and only if the header is t=<canonical decimal>,v1=<signature> with 64 lower-case bytes free of separators and labels |
| Signatures.CallbackExact | internal/hmac/header.go:12-38 | A callback header verifies if and only if it is the printed header of its body for a time within the replay window |
| Signatures.ReconcileExact | internal/hmac/header.go:40-73 | A reconciliation header verifies if and only if it is the printed header of its path for a time within the replay window |
| Signatures.CallbackMessageDetermines | internal/hmac/header.go:12-38 | What is signed for a callback determines its time and its body |
| Signatures.ReconcileMessageDetermines | internal/hmac/header.go:40-73 | What is signed for a reconciliation determines its time and its path |
| Signatures.HeaderShapes | internal/hmac/header.go:12-50 | The exact text of both headers |
| Signatures.TokenPrinted | internal/hmac/token.go:12-23 | A token is printed if and only if its payload is not empty and it fits in 8192 bytes; it is the encoded payload, a dot and the hexadecimal code |
| ChargeSafety.OneChargePerAction | internal/scheduler/scheduler.go:182-190 | At most one attempt of an action has a key the provider authorises |
| ChargeSafety.OneActionPerPeriod | internal/scheduler/scheduler.go:170-270 | Attempts for one period of one subscription belong to one action |
| ChargeSafety.PaysForNextPeriod | internal/scheduler/scheduler.go:236-237 | An authorised attempt not yet on record as such pays for exactly the period after the current one |
| ChargeSafety.PrepareFacts | internal/scheduler/scheduler.go:182-190 | When a new attempt may be prepared, every attempt of the action is refused, retryable and of a lower number |
| ChargeSafety.PrepareKeeps | internal/scheduler/scheduler.go:170-270 | Preparing an attempt keeps the charge invariants |
| ChargeSteps.ClaimChargeKeeps | internal/scheduler/scheduler.go:279-293 | Claiming action and attempt keeps the charge invariants |
| ChargeSteps.RunExpireKeeps | internal/scheduler/scheduler.go:66-90 | Running an expiry keeps the charge invariants |
| ChargeRefusals.SettleKeeps | internal/scheduler/scheduler.go:338-439 | Settling a charge keeps the charge invariants, whatever happened since it was sent |
| ChargeRefusals.ResolveKeeps | internal/engine/engine.go:847-949 | An operator resolution keeps the charge invariants |
| ChargeRefusals.GiveUpKeeps | internal/scheduler/scheduler.go:141-157 | Handing an attempt over at its deadline keeps the charge invariants |
| ChargeRefusals.RecordAuthorisedKeeps | internal/engine/engine.go:706-729 | Recording an authorisation learned from outside keeps the charge invariants |
| ChargeRefusals.RecordRefusedKeeps | internal/engine/engine.go:730-778 | Recording a refusal learned from outside keeps the charge invariants |
| ChargeRefusals.GiveUpBlocks | internal/scheduler/scheduler.go:141-157 | The attempt is in manual review and the subscription blocked, past due unless expired |
| ChargeRefusals.UnclearAwaits | internal/scheduler/scheduler.go:338-360 | An unclear outcome leaves attempt and action uncertain and unclaimed, due again within a minute and not after the deadline of the attempt, and writes nothing the consumer sees |
| ChargeBlocks.RenewKeeps | internal/engine/engine.go:249-295 | Committing the renewal that an authorised attempt pays for keeps the charge invariants and leaves the next renewal waiting |
| ChargeBlocks.ActivateKeeps | internal/engine/engine.go:249-295 | Committing a first activation keeps the charge invariants |
| ChargeEvents.CommitEventKeeps | internal/engine/engine.go:423-453 | Committing a webhook keeps the charge invariants |
| BookSteps.SettleBooks | internal/scheduler/scheduler.go:338-439 | Settling a charge writes nothing visible, or one subscription one version on with its one event |
| BookSteps.CommitEventBooks | internal/engine/engine.go:423-453 | Committing a webhook writes nothing visible, or one subscription one version on with its one event |
| BookSteps.ResolveBooks | internal/engine/engine.go:847-949 | An operator resolution writes nothing visible, or one subscription one version on with its one event |
| Ledger.BalancedKeepsLedger | internal/engine/engine.go:248-274 | Such a write keeps the outbox complete, without repetition, up to date and telling a lawful story |
| Books.BalancedKeepsBound | internal/engine/engine.go:594-610 | Such a write keeps checkouts and subscriptions in one-to-one correspondence |
| Books.BindingStays | internal/engine/engine.go:594-610 | Such a write never rebinds a checkout |
| Bindings.OneToOne | internal/store/memory.go:172-185 | A subscription carries a checkout if and only if that checkout names it, and no two carry the same |
| Payments.ProgressKeepsPaid | internal/engine/transition.go:139-171 | Every renewed event of an Adyen subscription stays backed by an authorised attempt for its month |
| StepSafety.StepKeepsCharge | internal/scheduler/scheduler.go:39-47 | Every step of the system keeps the charge invariants |
| StepSafety.StepProgress | internal/store/memory.go:55-64 | Every step of the system balances the books and undoes nothing |
| Reads.StepKeepsReads | internal/engine/engine.go:409-453 | Every step keeps commits under a key linear and every valid lease newer than all of them |
| Effects.CommitEffect | internal/engine/engine.go:248-323 | A committed change writes one row, one event and its follow-up work, and nothing else |
| Effects.FollowUpAdds | internal/engine/engine.go:275-316 | Follow-up work adds the action it asks for when its key is new |
| MemoryStore.Memory.Restore | internal/store/memory.go:91-101 | The rows become those of the snapshot |
| MemoryStore.Memory.InsertCheckout | internal/store/memory.go:117-131 | Adds the checkout, or a conflict on id or idempotency key and no change |
| MemoryStore.Memory.ExpireDueCheckouts | internal/store/memory.go:157-169 | Exactly the open checkouts whose time has come become expired, and they are counted |
| MemoryStore.Memory.InsertSubscription | internal/store/memory.go:171-185 | Adds the row, or a conflict on reference or checkout and no change |
| MemoryStore.Memory.GetSubscriptionByCheckout | internal/store/memory.go:201-209 | Finds a row that carries the checkout if there is one |
| MemoryStore.Memory.GetSubscriptionByProcessor | internal/store/memory.go:211-219 | Finds a row of the processor subscription if there is one |
| MemoryStore.Memory.GetSubscriptionByInitialPayment | internal/store/memory.go:221-229 | Finds a row of the first payment if there is one |
| MemoryStore.Memory.InsertOutbound | internal/store/memory.go:251-264 | Adds the event, or a conflict on id or version and no change |
| MemoryStore.Memory.ClaimDueOutbound | internal/store/memory.go:290-319 | Claims a due event that no due event precedes, under a new fence, or finds that none is due |
| MemoryStore.Memory.GetLatestOutbound | internal/store/memory.go:857-874 | Finds the event with the highest version of a subscription if there is one |
| MemoryStore.Memory.InsertAction | internal/store/memory.go:532-544 | Adds the action, or a conflict on id or key and no change |
| MemoryStore.Memory.LockDueAction | internal/store/memory.go:607-623 | Finds a due action of an allowed kind that no such action precedes, or that there is none |
| MemoryStore.Memory.CancelActionsForSubscription | internal/store/memory.go:708-719 | Exactly the waiting actions of the subscription are canceled, except the one to keep |
| MemoryStore.Memory.InsertAttempt | internal/store/memory.go:734-749 | Adds the attempt, or a conflict on id, reference, key or number and no change |
| MemoryStore.Memory.GetAttemptByReference | internal/store/memory.go:760-768 | Finds an attempt with the reference if there is one |
| MemoryStore.Memory.GetAttemptByPayment | internal/store/memory.go:231-239 | Finds an attempt with the payment if there is one |
| MemoryStore.Memory.GetAttemptsForAction | internal/store/memory.go:770-780 | All attempts of the action, by number |
| MemoryStore.InsertByNumber | internal/store/memory.go:778-778 | Keeps a list of attempts sorted while adding one |
| EngineService.Service.CancelAtPeriodEnd | internal/engine/engine.go:828-845 | All of the transaction or nothing |
| EngineService.Service.ExpireNow | internal/engine/engine.go:971-988 | All of the transaction or nothing |
| EngineService.Service.ActivateCheckout | internal/engine/engine.go:1009-1032 | All of the transaction or nothing |
| EngineService.Service.ResolveAttempt | internal/engine/engine.go:847-949 | All of the transaction or nothing |
| EngineService.Service.FindHits | internal/engine/engine.go:508-517 | The rows that the scans of one webhook return |
| EngineService.Service.ApplyStripe | internal/engine/engine.go:500-575 | Creates, updates or ignores as specified; a rejected event has written nothing |
| EngineService.Service.ApplyAdyenRenewal | internal/engine/engine.go:672-751 | Correlates the webhook to its attempt; a rejected event has written nothing |
| EngineService.Service.ApplyAdyenContract | internal/engine/engine.go:796-826 | Cancels the one subscription of the payment; a rejected event has written nothing |
| EngineService.Service.CommitEvent | internal/engine/engine.go:423-453 | All of the transaction or nothing |
| WorkerService.SchedulerWorker.RunExpire | internal/scheduler/scheduler.go:66-90 | A due expiry that none precedes is run: all of it or nothing |
| WorkerService.SchedulerWorker.Choose | internal/scheduler/scheduler.go:178-190 | The first open attempt, or one more than the highest number |
| WorkerService.SchedulerWorker.PrepareRenewal | internal/scheduler/scheduler.go:92-112 | A due renewal that none precedes gets its open attempt or the next one |
| WorkerService.SchedulerWorker.FirstInFlight | internal/scheduler/scheduler.go:126-140 | The first attempt in flight, or that there is none |
| WorkerService.SchedulerWorker.PickUncertain | internal/scheduler/scheduler.go:114-166 | An attempt in flight is picked up again, or handed over once its deadline has passed |
| WorkerService.SchedulerWorker.GiveUp | internal/scheduler/scheduler.go:141-157 | All of the transaction or nothing |
| WorkerService.SchedulerWorker.ClaimCharge | internal/scheduler/scheduler.go:279-290 | Action and attempt under one fence, or no change |
| WorkerService.SchedulerWorker.SettleCharge | internal/scheduler/scheduler.go:338-439 | All of the transaction or nothing; a lost claim changes nothing |

## Left out

- Values that are only computed, such as the processing key of an event: the step system and the methods use them, and no property of their own is stated.
- Fractions of a second: instants are whole seconds, as the code truncates them; the parser of timestamps reads fractions and refuses them.
- One-digit hours, which the time package of Go tolerates when it parses, are refused by the model; the code's own round-trip check refuses them as well.
- Integer widths: counters, fences and versions are unbounded integers; only Unix seconds are limited to int64. The wrapping product in the token lifetime check (internal/protocol/time.go:78) is not modelled.
- Hashes and encryption: an action key stands for the text that it hashes, which is proved to determine it; sealed payment methods and requests stand for their plain contents; the message authentication code is an arbitrary function to 32 bytes.
- Random identifiers and the time of the next delivery attempt, a jittered backoff, are parameters.
- Row timestamps of creation and update, audit metadata, schema version and the listing methods of the store, which nothing else depends on.
- EngineService.Service.StartCheckout: takes the verified claims of the start token and the processor of the plan as given, and leaves out the request to the processor; Signatures.TokenExact speaks of tokens.
- EngineService.Service.FindHits: makes all scans of a webhook at the start of its transaction, where the code makes each when it needs it; they read the same rows.
- Texts are sequences of code points with their UTF-8 length; header bytes that are not valid UTF-8 are not represented, and lower-casing of letters outside ASCII is an arbitrary function.
- Liveness: no claim that an event is eventually processed or a callback eventually delivered; a failed provider read leaves its event running.
- Guarantees.PaidMonthsServed: is about active subscriptions; an authorisation that arrives after the subscription has expired is recorded and serves no month.
- HTTP handlers, the portal, the processor clients, the PostgreSQL store, its migrations, configuration loading, the command line and deployment.
