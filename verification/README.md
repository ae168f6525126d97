# hookdrop: a verified model of billing, rate limiting and the live feed

hookdrop captures webhooks and shows them live. Two payment providers, Paystack
and Lemon Squeezy, tell it about subscriptions by webhooks that may be repeated
and may overtake each other. A signed-in user can redeem a Paystack reference,
cancel, or let time pass, and an operator can run a repair pass. All of them act
on one row per user in `subscriptions` and on the log `billing_events`, whose
unique key absorbs repeats. Beside that core stand two rate limiters that forget
idle keys in the background, the live event path from the server to a
developer's machine, the check of webhook signatures, and the highlighting of
JSON in the dashboard.

This project models these parts and proves what they promise. It is checked with
`dafny verify dfyconfig.toml`.

## How it is organised

| module | contents |
|---|---|
| `Core`, `Records`, `Columns` | text, instants, the rows of the two tables, the provider event and the columns it may leave out |
| `Entitlements` | what a stored row grants, and the single deadline of that grant |
| `Providers` | from decoded provider bodies to events |
| `BillingMachine` | the billing core as a state machine: each handler as a function from state to state, runs of any length |
| `BillingService` | the store and the handlers as classes; every method is proved equal to its step of the machine |
| `Outcomes`, `DeliveryOrder`, `ProviderNotices` | the same operations told from outside: when each answer is given and which columns are written then, which deliveries are turned away over a whole run, and what a provider's body ends up storing |
| `RowInvariants`, `Cancellation`, `Retention`, `ProviderEffects` | what every run of that machine keeps |
| `Convergence`, `FinalRow`, `MixedRuns` | repeated and reordered deliveries about one object: what is applied, when the order shows in the final row, and the same among other users' actions |
| `PaidTime`, `OnePayment` | the period end explained by what was bought, and one payment told twice |
| `Interleaving`, `Races` | any number of handlers side by side, one SQL statement at a time: at-most-once, its exact distance, and schedules that attain it |
| `OrderGuard`, `OrderShapes` | exactly which schedules keep the provider's order |
| `Overlap`, `StaleReads`, `OverlapRuns` | what overlapping handlers do to the table: what it keeps, what a handler with a stale read writes back, and schedules that lose a payment |
| `CancelOverlap` | a cancellation that overlaps with other writes to its row |
| `Serialised` | every run of the machine is a run of statements in which each call is over at the instant at which it starts, with the same tables, clock and history |
| `NoOverlap`, `NoOverlapRuns`, `FreshReads` | calls that come one after the other and take any time: provider order, spacing, fresh reads and paid time |
| `Repair` | the operator's pass |
| `TokenBucket`, `EvictionLimits`, `TickEviction`, `FixedWindow` | the two limiters, with and without eviction, on an exact clock and on the server's |
| `SseFormat`, `SseBlocks`, `LiveFeed`, `EventPath` | frames and their parser (section 9.2 of the WHATWG HTML Living Standard, as far as the client follows it), what the parser makes of any stream, the bounded queues, and one connection end to end |
| `SignatureVerify` | the provider header parsers and the choice among secrets |
| `JsonTokens`, `JsonExpression`, `JsonHighlighting` | the tokenizer, the regular expression as it is written, and what the tokenizer makes of a pretty-printed document |

`BillingMachine` carries an explicit clock and a history of what was applied.
Neither is read by any handler. The world outside the tables (the time, new
UUIDs, which of several matching rows a query without an order returns, and
whether a write fails) comes in as the `Env` of an action, and `Enabled` says
that it tells the truth about the tables.

## What turned out differently

* **"90 days apart" needs prompt handlers.** Two applications of one payload are
  more than 90 days apart when a handler writes at the instant it recorded. In
  general they are more than 90 days less the handlers' latency apart
  (`LatencyBound`), and `LatencyBoundIsReached` gives a run that attains the bound
  for every latency. Running the calls one after the other does not help: the bound
  is attained without overlap too (`SpacingIsReachedInTurn`).
* **The ordering guard needs the mark, and needs it in time.** It is a read before
  a separate write. Whatever the schedule, an event is refused exactly when a newer
  one of its object stands marked in the log at the moment of the check
  (`StaleExactlyWhenBlocked`). So the order is kept exactly when the newer event's
  mark succeeded before the older one's check and its row has not been cleaned up;
  an earlier check, a failed mark and a clean-up each have a run that applies the
  older event last (`OrderKeptExactlyWhen`). A check within 90 days of the newer
  recording is safe (`MarkedInTimeIsGuarded`). When calls do not overlap the early
  check is the only one of the three that goes away (`OrderKeptInTurnExactlyWhen`):
  an older event follows a newer one after a failed mark, or when it is checked
  more than 90 days after the newer one was recorded
  (`OlderFollowsOnlyUnguarded`). That can be less than 90 days after the newer one
  was applied, if its call took long (`OrderBoundIsReachedInTurn`).
* **The order of delivery can show in the final row.** The newest event decides what
  it carries. Period end, trial end and subscription id are carried forward from
  whatever came before when it does not carry them. `OrderIsInvisibleExactlyWhen`
  gives the exact condition on the deliveries, and `OrderShowsInThePeriod` two
  notices that end with a period in one order and with access that has no end in
  the other.
* **One payment can count twice, or be cut short.** `charge.success` sets the period
  from the payment and redeeming its reference adds one more on top, exactly when
  it happens within the period (`ChargeThenRedeem`). The other way round the charge
  takes back what redeeming had stacked on (`RedeemThenCharge`).
* **A stale read is written back.** A handler reads the columns one statement at a
  time and writes the row whole. A column its event does not carry is set to what
  was read of it (`EventWritesBackWhatItRead`): in every run this changes nothing
  while the read is fresh (`FreshEventKeepsTheColumn`), and otherwise undoes
  whatever was written to the column since, a purchase too
  (`EventUndoesWhatCameBetween`, `PurchaseCanBeTakenBack`). A known period end
  becomes unknown, or a subscription id empty, exactly when an event without one,
  or a cancellation, writes that had read none (`KnownColumnIsLostExactlyWhen`).
  Two references of one user that are both read before either writes buy one
  period (`BothReadFirstLosesOne`); a redemption with a fresh read loses nothing
  (`FreshRedemptionKeepsPaidTime`).
* **Without overlap every read is fresh.** However long each call takes, nothing it
  has read changes before it writes (`EveryReadIsFresh`, `EveryPendingRowStands`),
  so no known column is lost (`KnownFieldsStayInTurn`) and paid time is conserved
  (`PaidTimeIsConservedInTurn`).
* **A cancellation undoes what came before its write.** It writes back the whole row
  that it read before it asked the provider. Whatever is written to that row in
  between, a purchase or an expiry, is undone (`CancelUndoesWhatCameBetween`,
  `ExpiryCanBeUndone`); when nothing is, only the flag is set
  (`FreshCancelOnlySetsTheFlag`).
* **Eviction from the token bucket is visible for some limits.**
  `EvictionIsInvisibleExactlyWhen` gives the exact condition on an exact clock: a
  capacity of at least one token, refilled within ten minutes. The login limiter
  misses it, since the float64 nearest to 10/600 lies below it. On a clock that
  counts nanoseconds ten minutes and one nanosecond are enough, and for whole
  capacities exactly that is needed (`InvisibleOnTicksExactlyWhen`); for any capacity
  the condition is exact to within two nanoseconds
  (`InvisibleOnTicksAlmostExactlyWhen`). Both limiters of the server meet it with
  their defaults (`DefaultLimiters`).
* **The Stripe age check subtracts 64-bit integers.** It lets a timestamp through
  when it is at most 300 seconds old, or so far in the past that its age does not
  fit (`AgeCheck`). A timestamp in the future passes.
* **A repaired row is selected again** exactly when it failed or when the code
  found is not a subscription code (`StillSelected`).
* **Charges and notices are ordered apart.** A renewal charge names no subscription,
  so it is ordered among the events of its customer, and a notice among those of
  its subscription. A newer notice never holds up an older charge, nor the other
  way round (`ChargesAndNoticesAreApart`); over a whole run an event is turned away
  exactly when a newer one about the same object was applied, marked and kept
  (`StaleExactlyWhenSuperseded`).
* The comment on `MarkBillingEventProcessed` says that it records the user that
  was resolved; the handler passes the user named in the event, which may be
  empty (internal/handler/billing.go:290). The model follows the code.
* A scheduled cancellation lasts exactly until a redemption of the user is granted
  or an event of theirs without the flag is applied
  (`ScheduleSurvivesExactlyWhen`). A renewal charge and a failed charge are such
  events (`RenewalGivesItsInterval`, `FailedChargeGivesAWeek`).

## Model

| member | source | states |
|---|---|---|
| Records.ClaimsAreNotPayloads | internal/handler/billing.go:545-546 | The key that claims a reference is never the key of a webhook body that decoded |
| Entitlements.ViewOverridesForceFree | internal/store/store.go:774-794 | The read-time expiry view changes plan and status only, and any change forces the free plan |
| Entitlements.AccessHasOneDeadline | internal/store/store.go:778-794 | Every stored row has one instant, built from period end, trial end, cancel flag and the two graces, up to which its plan is granted and after which the plan is free |
| Entitlements.MeAgreesWithSubscription | internal/handler/me.go:38-42 | /me reports pro exactly when plan and is_active of /billing/subscription say pro, which is exactly up to the deadline |
| Entitlements.AccessNeverComesBack | internal/billing/entitlements.go:69-86 | Without a write, access that has ended never returns |
| Outcomes.ReadAsStoredExceptWhenOver | internal/store/store.go:742-797 | A row reads as it is stored, except that a scheduled cancellation past its period reads as canceled and an ended trial as past due, both on the free plan; without a row the plan is free |
| Outcomes.PaidAccessExactlyWhen | internal/billing/entitlements.go:69-86 | A user has Pro exactly while it is stored, neither cancellation nor trial is over, and the period ended at most three days ago, or less than seven when a payment is overdue; deadline and /me agree |
| Providers.ParsePlan | internal/billing/paystack.go:642-680 | The plan code is taken from the two JSON shapes in order, and an amount is reported exactly when an object naming that same code gives it |
| Providers.FirstActive | internal/billing/paystack.go:821-827 | The subscription adopted is the first active one: none before it is active |
| Providers.ChooseSubscription | internal/billing/paystack.go:821-827 | The loop picks a listed subscription: the first active one, else the first |
| ProviderNotices.PlanCodeIsTheFirst | internal/billing/paystack.go:642-680 | The plan code is the bare text, else the code of the one object, else that of the other |
| ProviderNotices.PaystackActsOnExactlyWhen | internal/billing/paystack.go:284-467 | Acted on are exactly the three notices about a subscription, the charges for one of our plans, and the invoices for one that say they failed |
| ProviderNotices.PaystackNoticesAreOrderedBy | internal/billing/paystack.go:349-465 | The object and the time a recorded Paystack body is ordered by: the first of its times, for a charge else its arrival, among the events of its subscription or else its customer |
| ProviderNotices.LemonNoticesAreOrderedBy | internal/billing/lemonsqueezy.go:346-362 | The same for Lemon Squeezy, by when the subscription was updated |
| ProviderNotices.SubscriptionNoticeStores | internal/billing/paystack.go:284-353 | The row an applied subscription notice leaves, from its body; only not_renew and disable schedule a cancellation |
| ProviderNotices.ChargeStores | internal/billing/paystack.go:355-410 | The row an applied charge leaves: active for 30 or 365 days from the payment, nothing scheduled, the subscription id kept |
| ProviderNotices.FailedChargeStores | internal/billing/paystack.go:412-467 | The row an applied failed charge leaves: past due, with period, trial, subscription id and renewal flag as they were |
| ProviderNotices.LemonActsOnExactlyWhen | internal/billing/lemonsqueezy.go:261-334 | Acted on are exactly the seven notices about a subscription |
| ProviderNotices.LemonNoticeStores | internal/billing/lemonsqueezy.go:336-430 | The row an applied Lemon Squeezy notice leaves, from its body: status, plan, interval, the end that counts, the trial and the cancel flag |
| BillingMachine.LatestIsUnique | internal/store/store.go:892-915 | The ordering query has exactly one right answer |
| BillingMachine.LatestAfterRecording | internal/handler/billing.go:231-243 | Recording a delivery never raises the mark of any object |
| BillingMachine.LatestAfterMarking | internal/store/store.go:878-884 | Marking a timestamped event raises the mark of its object to that timestamp, and never lowers it |
| BillingService.Store.GetSubscription | internal/store/store.go:742-797 | The row as stored, seen through the expiry view, or the default free row |
| BillingService.Store.RecordBillingEvent | internal/store/store.go:813-838 | Stores exactly when the key is new and the write succeeds; otherwise the log is unchanged and the reason is told |
| BillingService.Store.MarkBillingEventProcessed | internal/store/store.go:878-884 | Sets the processed flag and the user of exactly that row |
| BillingService.Store.LatestProcessedEventAt | internal/store/store.go:892-915 | The newest provider timestamp among the processed rows of the object, and nothing for an empty object id |
| BillingService.Store.DeleteOldBillingEvents | internal/store/store.go:918-927 | Keeps exactly the rows of the last 90 days and counts the others |
| BillingService.Store.FindBySubID | internal/store/store.go:935-937 | A row holding that id, nothing when there is none or the id is empty |
| BillingService.Store.FindByCustomerID | internal/store/store.go:945-947 | The same for the customer id |
| BillingService.Store.UpsertSubscription | internal/store/store.go:1055-1091 | Writes every column of the user's row but keeps its id and creation time; no other row changes |
| BillingService.BillingHandler.ResolveWebhookUser | internal/handler/billing.go:679-695 | By subscription id, and only when no row has it by customer id |
| BillingService.BillingHandler.ProcessWebhookEvent | internal/handler/billing.go:328-427 | Writes the event's row for the owner, or nothing when no owner is found or the write fails |
| BillingService.BillingHandler.CheckOrder | internal/handler/billing.go:252-273 | Stale exactly when the event is timestamped and a newer one of its object was applied; `DeliveryOrder` says which events are about one object |
| BillingService.BillingHandler.ActOnEvent | internal/handler/billing.go:252-295 | After recording: stale, failed or applied and marked, as the machine's delivery step |
| BillingService.BillingHandler.HandleWebhook | internal/handler/billing.go:182-296 | One call is exactly one delivery step of the machine: both tables, the history and the HTTP answer |
| Outcomes.AnswersExactlyWhen | internal/handler/billing.go:182-296 | When each of the four answers is given: refused, not stored, to be retried because nobody owns the event or its write fails, and received |
| Outcomes.AppliedEventWrites | internal/handler/billing.go:218-427 | An applied event writes one row of each table, and these are their columns: what it carries, and what was stored where it carries nothing |
| Outcomes.OtherDeliveriesOnlyRecord | internal/handler/billing.go:182-288 | Any other delivery leaves the subscriptions alone and at most adds its own unprocessed row to the log |
| DeliveryOrder.DeliveryMakesStaleExactlyWhen | internal/handler/billing.go:222-273 | A delivery makes an event stale if and only if it is applied and marked, names the same subscription (or, where one names none, goes by the same customer), and is newer |
| DeliveryOrder.ChargesAndNoticesAreApart | internal/handler/billing.go:222-229 | An event that names a subscription never holds up one that names its customer only, nor the other way round |
| DeliveryOrder.OlderNoticeIsStale | internal/handler/billing.go:252-273 | Of one subscription an older event after a newer one that was applied and marked is stale and changes nothing, whatever customers the two name |
| DeliveryOrder.StaleExactlyWhenSuperseded | internal/handler/billing.go:252-273 | Over every run an event is stale if and only if a newer one about the same object was applied and marked, and no clean-up came more than 90 days after it |
| BillingService.BillingHandler.ScreenTransaction | internal/handler/billing.go:446-524 | The checks on a transaction before any table is touched, in their order; `GrantedExactlyWhen` spells them out |
| BillingService.BillingHandler.BoughtRow | internal/handler/billing.go:609-645 | The bought row: the period starts at the end of what is left, else now |
| BillingService.BillingHandler.VerifyPaystack | internal/handler/billing.go:430-661 | One call is exactly one redemption step of the machine, with its verdict |
| Outcomes.GrantedExactlyWhen | internal/handler/billing.go:446-578 | Granted if and only if the reference is given and verifies, the payment is in naira, for one of our plans, of its amount and the caller's own, nobody else holds the reference or has claimed it, and the writes succeed; otherwise the first of these that fails gives the answer |
| Outcomes.OnlyThePayerRedeems | internal/handler/billing.go:516-524 | A payment made under another e-mail address is never granted and changes neither table |
| Outcomes.GrantedPaymentWrites | internal/handler/billing.go:547-655 | A granted redemption writes the claim and one row, and these are their columns: 30 or 365 days on top of what is left |
| Outcomes.RefusedPaymentWrites | internal/handler/billing.go:446-655 | A refusal writes nothing, except that the claim stays when the last write fails |
| BillingService.BillingHandler.CancelSubscription | internal/handler/billing.go:698-788 | One call is exactly one cancellation step of the machine, with its reply |
| Outcomes.CancelledExactlyWhen | internal/handler/billing.go:698-773 | When each of the five answers is given, and that only a cancellation writes, and only the flag and the update time |
| Outcomes.ProvidersNoDecides | internal/handler/billing.go:731-762 | The provider's no leaves a Lemon Squeezy row, and a Paystack row with a subscription code, as it is; a Paystack row without a code is cancelled whatever the provider says |
| BillingService.BillingHandler.CleanUp | main.go:238-251 | One call is exactly one clean-up step of the machine |
| Outcomes.CleanUpKeepsNinetyDays | internal/store/store.go:918-927 | A clean-up keeps exactly the log rows of the last ninety days, unchanged, and touches nothing else |
| BillingService.BillingHandler.Me | internal/handler/me.go:38-42 | The stored plan up to the row's deadline, the free plan after it and for users without a row |
| RowInvariants.TableInvariant | internal/handler/billing.go:387-390 | Over every run a stored paid plan has an entitled status, there is one row per user and every row has an id of its own |
| RowInvariants.KnownFieldsStay | internal/handler/billing.go:353-407 | Over every run no row disappears, a known period end never becomes unknown and a subscription id never becomes empty |
| RowInvariants.ExpiryGateStaysOn | internal/handler/billing.go:357-364 | Once a period end is known, no run of online actions makes access last for ever |
| RowInvariants.AutoRenewsIsSetByRedemption | internal/handler/billing.go:396-403 | Over every run only the user's own redemptions change whether an existing row renews |
| Cancellation.CancelStoresRawRow | internal/handler/billing.go:765-773 | A cancellation that reaches its write stores the raw row with only the flag and the update time changed |
| Cancellation.SecondCancelChangesNothing | internal/handler/billing.go:714-728 | Cancelling again, at any time and whatever the provider says, changes neither table |
| Cancellation.CancelKeepsPaidAccess | internal/store/store.go:778-784 | A scheduled cancellation keeps access exactly until the period that was paid for ends |
| Cancellation.ViewIsNeverPersisted | internal/store/store.go:774-794 | However much time passes, cancellations and clean-ups never write the expiry view to the table |
| Cancellation.ScheduleSurvivesExactlyWhen | internal/handler/billing.go:409-423 | Over every run a scheduled cancellation stays scheduled if and only if the user is granted no redemption and no event of theirs without the flag is applied |
| Convergence.AppliedAreTheMaxima | internal/handler/billing.go:252-293 | The events applied are exactly the left-to-right maxima by provider timestamp among the first deliveries |
| Convergence.NewestWins | internal/handler/billing.go:409-423 | The final row carries everything the newest event says |
| Convergence.BothEndWithTheNewest | internal/handler/billing.go:213-217 | Two runs with the same deliveries, in any order and with any repetition, both end with what the newest event carries |
| FinalRow.OrderIsInvisibleExactlyWhen | internal/handler/billing.go:353-423 | The same deliveries end with the same columns (all but the row's id and times of writing) in every order and with every repetition if and only if the newest carries period end, trial end and subscription id, or every applicable delivery that carries a missing one says what was stored |
| FinalRow.SettledColumnEnds | internal/handler/billing.go:353-407 | What such a column is in the end: the newest event's value, else the one stored before the run |
| FinalRow.OrderShowsInThePeriod | internal/handler/billing.go:353-364 | Two notices of one subscription, the later without a period: from empty tables one order ends with the period, the other with access that never ends |
| MixedRuns.OthersDoNotShow | internal/handler/billing.go:252-295 | Other users' webhooks, redemptions and cancellations and clean-ups in between leave the same row and the same applications as the object's own deliveries alone, within the retention period |
| MixedRuns.MaximaInCompany | internal/handler/billing.go:252-293 | Whatever else happens to anyone in between, the user's own redemptions, cancellations and other subscriptions included, the events applied to the object are still exactly the left-to-right maxima |
| MixedRuns.ConvergesInCompany | internal/handler/billing.go:213-217 | Two runs among other users' actions and clean-ups with the same deliveries about the object both end with the newest event, and in the same row when the deliveries settle it |
| Retention.ConsistentAlongTheRun | internal/store/store.go:799-838 | The joint invariant of log and history: remembered for 90 days, spaced, ordered, claims apart |
| Retention.ProcessedMeansApplied | internal/handler/billing.go:264-293 | A row is marked only if its event was applied, and every mark is the timestamp of an applied event |
| Retention.AppliedInProviderOrder | internal/handler/billing.go:252-273 | Timestamped events applied to one object within 90 days, the earlier one marked, are in provider order |
| Retention.AppliedAtMostOnce | internal/store/store.go:802-838 | Two applications under one key are more than 90 days apart |
| Retention.RecordedIsNeverRetried | internal/handler/billing.go:231-288 | A recorded delivery, even one that failed, is absorbed on every retry of the next 90 days: at most once, not exactly once |
| Retention.RecentRowsSurvive | internal/store/store.go:918-927 | A log row of the last 90 days survives every run |
| Retention.ClaimedOnceForEveryone | internal/handler/billing.go:536-578 | After one claim, for 90 days and over any run in between, no account gets anything from that reference |
| Retention.RedeemingLeavesOrderingAlone | internal/handler/billing.go:547-554 | Claims never take part in the ordering check |
| PaidTime.PaidTimeIsConserved | internal/handler/billing.go:615-627 | Over every run: from the last period an applied event set, else the stored one, the period end is the greatest of it plus all time bought since and, over every purchase since, its instant plus the time bought from it on; the bought intervals are disjoint and whole |
| PaidTime.EarlyRenewalKeepsTheRest | internal/handler/billing.go:609-622 | Renewing early loses nothing of what is left |
| OnePayment.ChargeThenRedeem | internal/handler/billing.go:615-622 | charge.success and then redeeming the same payment ends two whole periods after the payment if and only if it is redeemed within the first; later it starts anew |
| OnePayment.RedeemThenCharge | internal/handler/billing.go:353-356 | The other way round the end is one period after the payment, earlier than before exactly when redeeming had started later than the payment |
| OnePayment.ChargeIsNoClaim | internal/handler/billing.go:526-555 | The notice of a payment changes neither the verdict on redeeming it nor what the look-up by reference finds |
| ProviderEffects.DoneReflects | internal/handler/billing.go:387-423 | An applied event leaves a row that reflects it and keeps what it does not carry |
| ProviderEffects.RenewalGivesItsInterval | internal/billing/paystack.go:355-410 | A renewal charge gives its 30 or 365 days from the payment plus three days, keeping subscription id and renewal flag |
| ProviderEffects.RedeemingGivesItsInterval | internal/handler/billing.go:609-661 | A redeemed reference gives the 30 or 365 days of its plan code on top of what is left, renews exactly when chargeable again, and touches nobody else |
| ProviderEffects.FailedChargeGivesAWeek | internal/billing/paystack.go:412-467 | A failed renewal keeps the period and gives access for seven days past it |
| ProviderEffects.SubscriptionChangeAccess | internal/billing/paystack.go:284-353 | A subscription notice stores pro if and only if plan code and status both entitle |
| ProviderEffects.ExpiredEndsAccess | internal/billing/lemonsqueezy.go:401-404 | Status expired ends access whatever the event is called |
| ProviderEffects.CancelledKeepsAccessUntilItEnds | internal/billing/lemonsqueezy.go:413-421 | Status cancelled keeps access exactly until ends_at, or until a running trial ends before that |
| ProviderEffects.AtRiskKeepsAWeek | internal/billing/lemonsqueezy.go:405-408 | Past due, unpaid and paused keep access for seven days past the period |
| ProviderEffects.NewestLemonEventDecides | internal/billing/lemonsqueezy.go:332-423 | Whatever the order and repetition of the notifications, the newest one alone fixes the instant up to which access lasts, for each of the seven statuses whose dates it gives; an expired one ends access |
| Interleaving.InvAlongTheRun | internal/store/store.go:808-838 | The invariant of handlers, log and history along every interleaving of statements |
| Interleaving.AppliedOnceWhileRetained | internal/handler/billing.go:236-288 | With any number of handlers interleaved, nothing is applied twice unless its log row was cleaned up |
| Interleaving.ApplicationsApart | internal/store/store.go:918-927 | Of two applications of one payload, the later insert comes more than 90 days after the earlier handler's clock reading |
| Interleaving.LatencyBound | internal/store/store.go:813-818 | Two applications are more than 90 days less the latency apart |
| Races.LatencyBoundIsReached | internal/store/store.go:813-818 | That bound is attained for every latency and every event that names its user, so 90 days is not a bound by itself |
| Races.OlderCanOverwriteNewer | internal/handler/billing.go:255-282 | For every two events of one user and object, when both checks precede both writes the older one is applied last |
| OrderGuard.StoryAlongTheRun | internal/store/store.go:878-927 | In every interleaved run a row is in the log exactly when the schedule inserted and kept it, and is processed exactly when the schedule marked it |
| OrderGuard.StaleExactlyWhenBlocked | internal/handler/billing.go:255-273 | In every interleaved run the check refuses an event if and only if a newer one of its object stands marked and kept |
| OrderGuard.AppliedExactlyWhenUnblocked | internal/handler/billing.go:252-282 | An event whose check comes next, and whose user is named or found in the table as it stands, can still be applied, and be applied last, if and only if no newer one stands marked and kept |
| OrderShapes.MarkedInTimeIsGuarded | internal/handler/billing.go:255-293 | Once the newer event is marked, an older one checked within 90 days of the newer one's recording is never applied, whatever else runs |
| OrderShapes.OrderKeptExactlyWhen | internal/handler/billing.go:252-293 | For every two events about one object whose users are named or found in their turn: a schedule keeps their order for certain if and only if the newer mark succeeded, and its row was kept, by the older check |
| OrderShapes.RenewalsKeepOrderExactlyWhen | internal/handler/billing.go:675-695 | The same for two renewals that name no user, when some row has their customer or subscription: the older one's look-up then finds the user too |
| Serialised.CallIsDeliver | internal/handler/billing.go:182-296 | The statements of one webhook call, run without interruption at one instant, are exactly one delivery step of the machine: tables, clock and history |
| Serialised.RedemptionIsRedeem | internal/handler/billing.go:536-661 | The same for a redemption, from its claim on |
| Serialised.CancellingIsCancel | internal/handler/billing.go:707-773 | The same for a cancellation |
| Serialised.SerialRunsAreMachineRuns | internal/handler/billing.go:182-296 | Every possible run of the machine is a run of interleaved statements in which each call is over at the instant at which it starts, with the same tables, clock and history, application by application |
| Serialised.SerialApplicationsApart | internal/store/store.go:802-838 | So when calls take no time, two applications under one key are more than 90 days apart |
| Serialised.SerialProviderOrder | internal/handler/billing.go:252-273 | So when calls take no time, an older event follows a newer one of its object only after a failed mark or more than 90 days after its application |
| NoOverlap.OlderFollowsOnlyUnguarded | internal/handler/billing.go:252-293 | Over every run in which each call starts when the earlier ones are through, whatever time they take: an older event is applied after a newer one of its object only if the newer one's mark failed, or if it was checked more than 90 days after the newer one was recorded |
| NoOverlap.OrderLatencyBound | internal/handler/billing.go:252-293 | So when all calls write within some latency and the newer mark did not fail, the older event is applied more than 90 days less that latency later |
| NoOverlapRuns.SerialRunsAreInTurn | internal/handler/billing.go:182-296 | Every possible run of the machine is among the runs without overlap |
| NoOverlapRuns.OrderKeptInTurnExactlyWhen | internal/handler/billing.go:252-293 | For every two events about one object whose users are named or found in their turn: schedules without overlap keep their order for certain if and only if the newer mark neither failed nor was cleaned up before the older check |
| NoOverlapRuns.SpacingIsReachedInTurn | internal/store/store.go:813-818 | Without overlap two applications of one payload can come exactly as close as with it: the bound on their spacing is attained for every latency |
| NoOverlapRuns.OrderBoundIsReachedInTurn | internal/handler/billing.go:252-293 | Without overlap an older event of any conflicting pair can follow the newer one, marked without failure, as closely as the latency bound on their order allows |
| FreshReads.EveryReadIsFresh | internal/handler/billing.go:353-407 | Without overlap the user's row is not written between a call's read of a column and its write |
| FreshReads.EveryPendingRowStands | internal/handler/billing.go:707-773 | Without overlap the row a cancellation has read is the stored one until it writes |
| FreshReads.KnownFieldsStayInTurn | internal/handler/billing.go:353-407 | Over every run without overlap no row disappears, a known period end never becomes unknown and a subscription id never becomes empty |
| FreshReads.PaidTimeIsConservedInTurn | internal/handler/billing.go:615-627 | Over every run without overlap, with one entry for each application: the period end is explained by the last period an event set, else the stored one, and the intervals sold since, none of which is lost |
| Overlap.TablesStayOk | internal/handler/billing.go:387-390 | However webhooks, redemptions, cancellations and clean-ups interleave, a stored paid plan has an entitled status, there is one row per user, and every row has an id of its own |
| StaleReads.EventWritesBackWhatItRead | internal/handler/billing.go:353-423 | An event's write sets each column it does not carry to what its handler read of it, and touches nobody else's row |
| StaleReads.FreshEventKeepsTheColumn | internal/handler/billing.go:353-407 | In every interleaved run an event leaves a column it does not carry as it is, if the user's row was not written since the handler read that column |
| StaleReads.KnownColumnIsLostExactlyWhen | internal/handler/billing.go:357-407 | In every interleaved run a move makes a known period end unknown, or a subscription id empty, if and only if it is the write of an event without one, or of a cancellation, that had read none |
| StaleReads.EventUndoesWhatCameBetween | internal/handler/billing.go:353-407 | In every interleaved run an event's write puts a column it does not carry back to what stood there when it read it, whatever was written in between |
| StaleReads.LosesTimeExactlyWhen | internal/handler/billing.go:615-622 | A redemption's write loses paid time if and only if the stored period ends later than the base it computed from its own read |
| StaleReads.FreshRedemptionKeepsPaidTime | internal/handler/billing.go:615-627 | In every interleaved run a redemption whose user's row was not written since it was read loses nothing |
| OverlapRuns.BothReadFirstLosesOne | internal/handler/billing.go:615-655 | Two references of one user, both read before either writes: two grants, and the period of the second alone |
| OverlapRuns.OneAfterTheOtherKeepsBoth | internal/handler/billing.go:615-655 | The same two one after the other add up |
| OverlapRuns.PurchaseCanBeTakenBack | internal/handler/billing.go:353-423 | An event that reads before a purchase and writes after it leaves every column it does not carry as before the purchase: the bought period is gone, and with no earlier one access never ends |
| CancelOverlap.CancelUndoesWhatCameBetween | internal/handler/billing.go:707-773 | Whatever happens between the read and the write of a cancellation, the write puts the row back as it was read, with the flag set, and touches nobody else's |
| CancelOverlap.FreshCancelOnlySetsTheFlag | internal/handler/billing.go:707-773 | If nobody writes the row in between, the flag and the update time are all that changes |
| CancelOverlap.ExpiryCanBeUndone | internal/handler/billing.go:707-773 | A notice that the subscription has ended, applied in between, frees the plan, and the cancellation makes it paid again |
| Repair.ListNeedingRepair | internal/store/store.go:955-990 | Exactly the Paystack rows without a subscription code that still renew, each once, oldest first |
| Repair.RepairPass | repair.go:23-113 | The whole table after a pass and both counters, each listed row counted once |
| Repair.ListedExactlyWhen | internal/store/store.go:955-973 | A row is listed if and only if it is Paystack's, still renews, and has no subscription code in any letter case; no other row changes |
| Repair.OthersComeThrough | internal/store/store.go:965-972 | Another provider's row, one with a code and one that does not renew are in no listing and equal after every pass |
| Repair.ListedRowBecomes | repair.go:44-104 | What an applied pass makes of a listed row, column by column, for each answer of Paystack |
| Repair.AnswerSays | internal/billing/paystack.go:818-833 | What a list of subscriptions is taken to say: code, status and next payment of the first active one, or of the first |
| Repair.NoCustomerFails | repair.go:71-77 | A row without a customer is left as it is and counted as failed |
| Repair.PassKeepsKeys | internal/store/store.go:994-1022 | After a pass there is still one row per user with an id of its own, so passes can be repeated |
| Repair.StillSelected | repair.go:79-104 | A row is still selected if and only if it failed or got something that is no subscription code |
| Repair.ReachesAFixedPoint | repair.go:44-104 | With no failure and real codes a pass leaves nothing selected, and a second one changes nothing |
| Repair.TouchesOnlyWhatItReconciles | internal/store/store.go:994-1022 | Unselected rows are untouched, and plan, user, id, trial, customer and cancel flag never change |
| Repair.DryRunPredicts | repair.go:90-109 | A dry run writes nothing and announces the count an applied run reports |
| Repair.NothingListedNeverRenews | repair.go:56-71 | A customer without subscriptions is marked as not renewing and keeps the access that was paid for |
| Repair.ActiveListedIsAdopted | internal/billing/paystack.go:821-833 | A row with an active subscription at the provider becomes active on the first such code |
| Repair.ReconcilingMayLoseInvariants | repair.go:79-95 | When exactly a reconciled row falls outside the online row invariants |
| TokenBucket.RateLimiter.Allow | internal/middleware/ratelimit.go:34-60 | The decision and the bucket left behind, for that address only |
| TokenBucket.RateLimiter.Cleanup | internal/middleware/ratelimit.go:66-78 | Removes exactly the buckets untouched for ten minutes |
| TokenBucket.TokensStayInRange | internal/middleware/ratelimit.go:34-58 | On every run and for every capacity tokens stay at or below it, and at or above nought, or above what the first call leaves of a capacity below one |
| TokenBucket.WindowBound | internal/middleware/ratelimit.go:34-60 | For every capacity the allowed calls of an address in any window number at most capacity plus refill times its length, or one if that is less |
| TokenBucket.WindowBoundWithEviction | internal/middleware/ratelimit.go:62-80 | The same with evictions at any moments, on every clock on which whoever is evicted is full again |
| TokenBucket.DeniedCallsDoNotMatter | internal/middleware/ratelimit.go:54-57 | Leaving out every denied call changes no other decision |
| TokenBucket.EvictingMatchesKeeping | internal/middleware/ratelimit.go:62-80 | On such a clock an evicting limiter and one that keeps everything make the same decisions |
| EvictionLimits.EvictionIsInvisibleExactlyWhen | internal/middleware/ratelimit.go:62-80 | With exact instants eviction is invisible if and only if the capacity is at least one and refills within ten minutes |
| TickEviction.InvisibleOnTicksExactlyWhen | internal/middleware/ratelimit.go:44-72 | On a nanosecond clock and for whole capacities it is invisible if and only if the capacity is at least one and refills within ten minutes and a nanosecond |
| TickEviction.InvisibleOnTicksAlmostExactlyWhen | internal/middleware/ratelimit.go:44-72 | For every capacity it is invisible when that holds, and visible when the capacity is below one or ten minutes and three nanoseconds refill no more than it |
| TickEviction.DefaultLimiters | main.go:145-147 | The default limits are safe on the server's clock; the login refill is the float64 just below 10/600, so with exact instants its evictions could be noticed |
| FixedWindow.EmailRateLimiter.Allow | internal/middleware/email_ratelimit.go:34-52 | The decision and the window left behind, for that key only |
| FixedWindow.EmailRateLimiter.Cleanup | internal/middleware/email_ratelimit.go:55-73 | Removes exactly the windows started more than an hour ago |
| FixedWindow.EvictionIsInvisible | internal/middleware/email_ratelimit.go:55-73 | Evicting at any moments changes no decision, whatever the limit |
| FixedWindow.HourBound | internal/middleware/email_ratelimit.go:34-52 | Every closed hour has at most twice the limit less one allowed calls for a key |
| FixedWindow.HourBoundIsReached | internal/middleware/email_ratelimit.go:34-52 | For every limit some run attains that bound |
| SseFormat.Stream | cli/internal/sseclient/client.go:90-123 | The scan loop delivers exactly what feeding the lines in order yields |
| SseBlocks.EventsAreThoseOfTheBlocks | cli/internal/sseclient/client.go:97-122 | For any lines: one event for each group that ends with a blank line, with its last name and its data lines from the first that is not empty, joined by newlines |
| SseBlocks.StreamDeliversItsBlocks | cli/internal/sseclient/client.go:90-123 | So the loop delivers exactly the events of the blocks of any stream |
| SseBlocks.LinesByTheirLength | cli/internal/sseclient/client.go:25-91 | A line within 16 MB, its end counted, is delivered without a carriage return before its end; a longer one ends the stream |
| SseBlocks.LastLine | cli/internal/sseclient/client.go:90-93 | What stands after the last newline is a line only once the stream has ended |
| SseFormat.RoundTrip | internal/handler/sse.go:57-72 | Every sequence of the server's frames is read back as its events in order, keepalives left out |
| SseFormat.UnfinishedFrameYieldsNothing | cli/internal/sseclient/client.go:97-110 | An unfinished last frame yields nothing |
| SseFormat.DeliveredAtAnyCut | cli/internal/sseclient/client.go:93-123 | After any number of characters the client has delivered exactly the events of the frames that arrived whole |
| SseFormat.CommentsChangeNothing | cli/internal/sseclient/client.go:111-112 | A comment line inserted at any line boundary changes nothing |
| LiveFeed.Broadcaster.Register | internal/sse/broadcaster.go:29-38 | Adds the client to its session and to no other |
| LiveFeed.Broadcaster.Deregister | internal/sse/broadcaster.go:41-50 | Removes it, and leaves no session without clients behind |
| LiveFeed.Broadcaster.Broadcast | internal/sse/broadcaster.go:53-78 | Offers the payload once to every client of the session with fewer than 32 waiting, and to nobody else |
| LiveFeed.Forwarder.Enqueue | cli/internal/forward/forwarder.go:74-81 | Accepts if and only if fewer than 100 are waiting, at the end |
| LiveFeed.Forwarder.DeliverNext | cli/internal/forward/forwarder.go:58-69 | The worker takes the oldest: nothing overtakes, nothing is tried twice |
| EventPath.InvAlongTheRun | cli/cmd/listen.go:218-236 | The invariant of buffer, wire, parser, queue and worker along every run |
| EventPath.ForwardedInOrder | cli/cmd/listen.go:218-236 | What the CLI tries to forward is an in-order subsequence of that session's broadcasts, with their payloads |
| EventPath.EveryBroadcastHasOnePlace | internal/sse/broadcaster.go:68-77 | Every broadcast is forwarded, queued, on its way or buffered, or was lost at a full buffer or at a full queue: exactly one of these |
| EventPath.DroppedExactlyWhenFull | internal/handler/sse.go:51-54 | The server drops a broadcast if and only if it finds all 32 slots taken |
| EventPath.QueueDropsExactlyWhenFull | cli/cmd/listen.go:232-234 | The CLI drops a request if and only if it finds 100 others waiting |
| EventPath.DrainedMeansForwarded | cli/cmd/listen.go:218-236 | With nothing lost and everything drained, exactly the broadcasts were forwarded, in order |
| SignatureVerify.ParseParts | internal/verify/verify.go:67-74 | The loop fills the map with every name=value field, the last of a name winning |
| SignatureVerify.StripPrefixes | internal/verify/verify.go:186-189 | The loop strips each prefix once, in order |
| SignatureVerify.SplitUndoesJoin | internal/verify/verify.go:69 | Splitting a header at commas gives back its fields |
| SignatureVerify.DecimalRead | internal/verify/verify.go:84-87 | Every 64-bit timestamp written in decimal is read back |
| SignatureVerify.AgeCheck | internal/verify/verify.go:88-94 | Which timestamps pass the age check, with 64-bit wrap-around |
| SignatureVerify.StripeReadsTheLastFields | internal/verify/verify.go:59-106 | For every list of fields the last t and the last v1 decide, in both directions |
| SignatureVerify.StripeRoundTrip | internal/verify/verify.go:59-106 | A genuine pair among any other fields verifies if and only if it passes the age check |
| SignatureVerify.PaystackAccepts | internal/verify/verify.go:109-130 | Verified if and only if the header is the digest |
| SignatureVerify.GitHubAccepts | internal/verify/verify.go:134-154 | Verified if and only if the header is sha256= and the digest |
| SignatureVerify.GenericAccepts | internal/verify/verify.go:157-201 | Verified if and only if the first non-empty header is the digest behind any of the three prefixes in order |
| SignatureVerify.FirstVerified | internal/verify/verify.go:26-41 | The first verifying secret decides; with none the last failure is reported |
| SignatureVerify.JoinUndoesSplit | internal/verify/verify.go:69 | And joining the fields gives back the header |
| SignatureVerify.StripeIsGenuine | internal/verify/verify.go:59-106 | A Stripe header verifies if and only if it is some list of fields whose last t and last v1 are genuine |
| SignatureVerify.VerifiesTheGenuine | internal/verify/verify.go:43-201 | Which request verifies under a secret of which provider: Stripe's fields, Paystack's SHA-512 digest, GitHub's sha256= and digest, and for any other the digest behind three optional prefixes in the first of four headers |
| SignatureVerify.Verify | internal/verify/verify.go:26-55 | Verified if and only if the request is genuine under some secret, and then the first such is named; else the last secret is reported |
| JsonExpression.MatchHereIsTheExpression | ui/src/lib/json.ts:39-41 | The match looked for at each place is the one the regular expression, as it is written and with backtracking, finds there |
| JsonTokens.Tokenize | ui/src/lib/json.ts:39-71 | The exec loop gives the leftmost matches and the text between them |
| JsonTokens.TokensAreAScan | ui/src/lib/json.ts:43-68 | Tokens spell out the input, none is empty, no two neighbours are unmatched, every match is leftmost |
| JsonTokens.ScanIsUnique | ui/src/lib/json.ts:43-68 | No other token list has these properties |
| JsonHighlighting.PrettyPrintedIsReadBack | ui/src/lib/json.ts:39-71 | A document printed with JSON.stringify is tokenized into exactly its lexemes, member names being the keys |
| JsonHighlighting.TokenizeJson | ui/src/lib/json.ts:39-71 | Lossless on every string, a scan by the expression as it is written, and exact on every pretty-printed document |

## Left out

* HTTP transport, JSON decoding, SQL text and drivers, logging and configuration: decoded events, tables and provider answers are modelled directly.
* Checkout, portal, plan prices and retries against the providers: network clients.
* HMAC and SHA: the two hashes are parameters with hexadecimal results; the event key stands for the text that is hashed.
* The audit columns `event_type` and `payload` of the log, and the row id of a log entry: no handler reads them.
* Reads of the store are taken to succeed. One read error is swallowed (internal/handler/billing.go:357) and would blank a period.
* The constant-time comparison of digests, and the second clock reading that only words the reason of an old Stripe timestamp.
* Case folding is modelled for ASCII letters, in `strings.EqualFold` and in SQLite's `LIKE`.
* The reconnect loop of the CLI with its delays, the stale-connection timer and the printer: one connection is modelled.
* React pages, sessions, magic links, quotas, slugs, API tokens, filters and the header skip list: they would add only easy members.
- BillingService.BillingHandler.HandleWebhook: one clock reading stands for the several of one serialised call; `Interleaving` gives every statement its own instant.
- Convergence.AppliedAreTheMaxima: for serialised deliveries that name their user and whose writes succeed; deliveries that share a timestamp are applied in the order of arrival.
- OnePayment.ChargeThenRedeem: between the two the user's period is left alone; other resets and purchases in between are accounted for by the conservation law.
- Retention.AppliedInProviderOrder: for calls that take no time, within the retention period, and when the earlier event was marked; `NoOverlap` says what holds when calls take time, `OrderShapes` and `OrderGuard` when they overlap.
- Serialised.SerialRunsAreMachineRuns: says nothing of calls that take time, whose rows carry the several instants of their statements; a redemption that another account holds, or that fails its checks, reaches no statement; the look-up for another holder reads the table of the call.
- MixedRuns.OthersDoNotShow: the user's own redemptions and cancellations, and events about other objects of the same user, are not among the company, since they write the row; `MaximaInCompany` has them.
- TickEviction.InvisibleOnTicksAlmostExactlyWhen: a configured capacity may be fractional; between one and three nanoseconds over ten minutes the answer then depends on which fractions of a token whole nanoseconds refill, and nothing is said.
- Interleaving.AppliedOnceWhileRetained: redemptions start at their claim, and the look-up of another holder of the reference precedes it and writes nothing; the two look-ups for an event that names no user are one statement. The repair pass is run by an operator and is not among the handlers.
- TokenBucket.WindowBoundWithEviction: for a capacity of at least one, without which every eviction lets one more call through.
- TokenBucket.RateLimiter.Allow: token counts and elapsed seconds are exact reals, so float rounding is not modelled, except in the value of the login limiter's constant.
- FixedWindow.EmailRateLimiter.Allow: the key is taken as given; how the handler derives it from an address is not part of this model.
- SseFormat.RoundTrip: for payloads on one line without outer white space, within the 16 MB line limit, counted in UTF-8 bytes; captured bodies are at most 1 MB.
- EventPath.EveryBroadcastHasOnePlace: the payload of a request is the server's own JSON, so the client's branch for one that does not decode is left out; the channel of 256 events between parser and renderer blocks when full and is unbounded here; requests still on the wire when a connection ends are not followed further.
- SignatureVerify.StripeRoundTrip: for one t and one v1; with several, the last of each decides.
- JsonTokens.Tokenize: strings are sequences of characters rather than UTF-16 code units, which the expression cannot tell apart.
- JsonHighlighting.PrettyPrintedIsReadBack: numbers are given by their text; lone surrogates are not characters here.
