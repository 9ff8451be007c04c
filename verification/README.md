# ParkWatch, verified

A Dafny model of ParkWatch: officers record parking violations, a rules service versions the
rulesets that price them, a payment service invoices and charges them, and the services talk
through RabbitMQ, Redis and their own Postgres tables. The model follows the Go code where the code
and its documents differ, and proves what the code does and does not guarantee.

The services run concurrently, so the three protocols are transition systems whose steps are single
SQL statements, Redis commands, deliveries and failures, taken in any order by any number of calls.
Their theorems are about every run. The services themselves are classes whose methods do what the Go
methods do; Pay and Create are proved to be runs of those systems (`PayCalls.PayIsRun`,
`CreateRuns.CreateIsRun`), so that the theorems about runs speak about the code.

| Files | What they hold |
|---|---|
| `Float64`, `Ties`, `Fine`, `Pricing`, `HalfUp`, `Violations` | binary64 rounding, the price of a violation and what it means, when it is exact, the prior-unpaid count |
| `RuleVersions`, `RulesService` | publishing transactions and the read-through cache; the service as a class |
| `Settlement` | the settlement protocol: tables, locks, queues, clock, one program counter per Pay call |
| `Causality`, `Charging`, `PayRuns`, `PayLocks`, `Overcharge` | from money to status; how often an invoice can be charged; the lock |
| `Quiescence`, `Confluence`, `Publication`, `Takings`, `Sums` | draining the queues, what the services agree on then, and the money |
| `PayCalls`, `PaymentService`, `ViolationService`, `Broker` | the services and the broker as classes |
| `Issuance`, `Snapshots`, `CreateRuns` | the whole system: Create between the rules service and the settlement protocol |
| `Rupiah`, `Notification`, `Redelivery` | notification texts, handlers, and their repeated delivery |
| `Options`, `Traces` | an option type; runs of a transition system |

Check everything with `dafny verify dfyconfig.toml`.

## Where the code falls short of its own words

Each of these is a theorem below, with the exact condition where there is one.

- **The lock does not prevent a double charge.** `Pay` reads the invoice before it takes the lock and
  does not read it again (internal/payment/service.go:72-102, DESIGN.md:89). Two calls that both read
  it as open both charge it, with Redis healthy, no failure and no time passing
  (`PayRuns.ChargedTwice`).
- **Nor does the status check.** When `MarkPaid` fails after the payment is recorded
  (internal/payment/service.go:106-119), the invoice stays open, and the next call charges again, even
  after the first has ended (`Overcharge.MarkFailsChargedTwice`). There is no third way: an invoice can
  collect a payment exactly when it is open and owned, or a call that read it as open has still to
  charge (`Overcharge.OverchargeIff`).
- **The lock excludes only while Redis answers and nobody outlives the key.** Both conditions are
  needed and they are enough (`PayLocks.ExclusiveIff`; internal/payment/service.go:129-143).
- **A release may delete somebody else's key.** The key names no owner, so a call that outlives the 15
  seconds deletes its successor's. That is the only way: a failing Redis does no harm here
  (`PayLocks.OwnKeyIff`).
- **A lost announcement is never repeated.** The publish after the insert is best effort, and a
  violation has an invoice exactly if that one publish arrived (`Publication.InvoicedIffPublished`).
- **Rounding is not always half up.** The product is computed in binary64: base 3 at a multiplier of
  0.16666666666666666 costs 1, where half-up rounding of the exact product gives 0
  (`Fine.PriceCanMissHalfUp`; DESIGN.md:94-95). When the first product fits a significand, exactly the
  products just below a k + 1/2 are mispriced (`HalfUp.OneRoundingExactIff`); `HalfUp.PriceExactIff` and
  `HalfUp.LargePriceExactIff` say it for all others.
- **The highest satisfied tier need not win.** The loop takes the last satisfied tier of the list
  (pkg/fine/fine.go:36-38 and 96-104), and `Validate` accepts lists on which that gives another
  multiplier (`Fine.DocumentedTierIff`).
- **Paying a fine can make the next one dearer.** `Validate` does not ask for a tier at zero, nor
  for multipliers in order (`Violations.BaseTierNeeded`); `Violations.PayingNeverRaisesIff` says on which
  rulesets this happens.
- **The stored time need not explain the price.** The hour is read in the offset the officer sent, the
  column keeps the instant only (DESIGN.md:104-105; `Violations.ColumnRepricesIff`).
- **A cache without expiry may stay stale forever.** With a TTL of 0 an entry whose
  invalidation is lost is never corrected (`RuleVersions.StalenessBoundedIff`).
- **Negative amounts can start with a lone sign.** `idr(-123)` is "Rp -.123" (`Rupiah.LoneSignIff`).
  No amount that reaches a notification is negative, though (`Snapshots.NoNegativeAmounts`).

## Model

| member | source | states |
|---|---|---|
| `Float64.NearestIsNearest` | pkg/fine/fine.go:75 | the result of a rounded product is a number with a 53-bit significand and no such number is nearer to the exact one (section 4.3.1 of IEEE 754-2019) |
| `Float64.NearestMonotone` | pkg/fine/fine.go:75 | rounding to binary64 keeps order |
| `Float64.RoundHalfAwayIsNearest` | pkg/fine/fine.go:75 | math.Round gives a nearest whole number, at a half the one further from zero |
| `Float64.NearestError` | pkg/fine/fine.go:75 | one rounding is off by at most 2^-53 of the value |
| `Fine.SelectRepeat` | pkg/fine/fine.go:96-104 | the loop over the tiers returns the multiplier of the last satisfied tier in list order, 1.0 if none is |
| `Fine.LastSatisfied` | pkg/fine/fine.go:96-104 | the index it names is satisfied and no later one is |
| `Fine.DocumentedTierIff` | pkg/fine/fine.go:36-38 | the loop answers, for every count, the multiplier of the documented winner, the highest satisfied threshold, if and only if a tier is overtaken in the list only by tiers with the same multiplier |
| `Fine.SortedFollowsDocument` | pkg/fine/fine.go:36-38 | thresholds in non-decreasing order are enough for that |
| `Fine.ValidRulesetMayDepart` | pkg/fine/fine.go:132-139 | Validate accepts a ruleset on which the loop departs from the documented rule |
| `Fine.RepeatOrderedIff` | pkg/fine/fine.go:96-104 | more prior violations never select a smaller multiplier if and only if they do not at zero and at the listed thresholds |
| `Fine.Validate` | pkg/fine/fine.go:112-141 | accepts exactly the rulesets with a positive base for each of the four types, positive multipliers, hours from 0 to 23 and at least one tier, all with thresholds from 0 on; each refusal names a defect the ruleset has |
| `Fine.DefaultRuleset` | pkg/fine/fine.go:146-168 | the day-one ruleset is publishable |
| `Fine.ValidRulesetPrices` | pkg/fine/fine.go:67-84 | a publishable ruleset prices every known type at every time and count, with positive base and multipliers and an amount that is not negative |
| `Pricing.CalculateIff` | pkg/fine/fine.go:67-84 | for every ruleset, type, time and count the answer is exactly the breakdown with the base amount of that type, the multiplier of the wall-clock window, that of the last tier whose threshold the count reaches (1.0 if none), and the product of the three, multiplied left to right in binary64 and rounded; and there is one exactly for the types the ruleset has |
| `Pricing.TimeForWindow` | pkg/fine/fine.go:87-93 | for every time rule and time: the day multiplier if and only if the local time of day, in milliseconds, lies from the start of the day hour to just before the night hour |
| `Pricing.NoDayWindow` | pkg/fine/fine.go:87-93 | a window that does not open before it closes is always night |
| `Pricing.RepeatForPicks` | pkg/fine/fine.go:96-104 | the multiplier is that of the last tier whose threshold the count reaches, 1.0 if it reaches none |
| `Pricing.DayOneFines` | pkg/fine/fine.go:146-168 | the day-one fines of all four types, at every time and count |
| `Fine.RepeatMonotone` | pkg/fine/fine.go:96-104 | with non-decreasing multipliers and a tier at zero, more prior violations never select a smaller multiplier |
| `Fine.PriceMonotone` | pkg/fine/fine.go:73-75 | through both rounded products and the final rounding, a larger multiplier never lowers the price |
| `Fine.ProductError` | pkg/fine/fine.go:75 | for a base up to 2^53 and an exact product up to 2^50 the floating-point product is within 0.3 of it |
| `Fine.PriceWithinOne` | pkg/fine/fine.go:75 | there the price differs from half-up rounding of the exact product by at most one rupiah |
| `HalfUp.PriceExceedsIff` | pkg/fine/fine.go:75 | below 2^52 the price exceeds k exactly if the real product the second multiplication rounds reaches k + 1/2, or lies below it by at most half the spacing of binary64 numbers there (less than half where that spacing is 1/2) |
| `HalfUp.PriceExactIff` | pkg/fine/fine.go:75 | for every base and multipliers the price is half-up rounding of the exact product if and only if the first rounding moves the product across no k + 1/2 and leaves it just below none |
| `HalfUp.OneRoundingExactIff` | pkg/fine/fine.go:75 | when base times time multiplier fits a significand, half-up is missed if and only if the exact product lies just below some k + 1/2 |
| `HalfUp.LargePriceExactIff` | pkg/fine/fine.go:75 | from 2^52 on it is met if and only if the half-up value is a multiple of the spacing and the one the second product rounds onto |
| `HalfUp.ProductRelativeError` | pkg/fine/fine.go:75 | for every base up to 2^53 the computed product is within 2.1 * 2^-53 of the exact one, relative to it |
| `HalfUp.FarFromTiesExact` | pkg/fine/fine.go:75 | for every base up to 2^53, an exact product that keeps that distance from every k + 1/2 is priced exactly |
| `Ties.ReachesTie` | pkg/fine/fine.go:75 | a number below 2^52 is rounded to k + 1/2 or more exactly if it is there or just below |
| `Ties.NearestOnto` | pkg/fine/fine.go:75 | the nearest binary64 number is the n-th multiple of the spacing exactly if the number is within half a spacing of it, half itself going to even n |
| `Fine.PriceExactWhenRepresentable` | pkg/fine/fine.go:75 | it is exact whenever both products fit a 53-bit significand |
| `Fine.DefaultPriceExact` | pkg/fine/fine.go:146-168 | with the day-one multipliers every base up to 2^49 is priced exactly |
| `Fine.PriceCanMissHalfUp` | DESIGN.md:94-95 | a concrete base and multiplier for which the documented half-up rounding is missed |
| `Violations.OwnRowsCount` | internal/violation/store.go:73-81 | an unpaid row of the plate from 90 days before t, to the millisecond, up to just before t counts one: when inserted, until removed or paid |
| `Violations.OtherRowsDoNotCount` | internal/violation/store.go:73-81 | a row of another plate, a paid one or one outside that window never changes the count: not inserted, nor removed, nor paid |
| `Violations.CountIsOfPlate` | internal/violation/store.go:73-81 | the count is the number of such rows |
| `Violations.OtherPlatesDoNotCount` | internal/violation/store.go:73-81 | tables that agree on the rows of a plate give it the same count |
| `Violations.MarkPaidCount` | internal/violation/store.go:73-81 | paying a violation takes exactly that violation out of the 90-day count, if it was in it |
| `Violations.InsertCount` | internal/violation/store.go:73-97 | inserting one adds exactly that one, if it is unpaid, of the plate and in the window |
| `Violations.PayingNeverRaises` | internal/violation/service.go:75-95 | end to end (count, tier, products, rounding): paying any violation never raises the fine Create would compute |
| `Violations.InsertingNeverLowers` | internal/violation/service.go:75-95 | recording another violation never lowers it |
| `Violations.PayingNeverRaisesIff` | pkg/fine/fine.go:129-139 | on a publishable ruleset paying never raises a fine, for every record, violation, type, plate and time, if and only if no higher count is priced lower at zero and at the listed thresholds |
| `Violations.OrderedTiersProgress` | pkg/fine/fine.go:67-104 | multipliers ordered at those counts are enough, through every rounding |
| `Violations.NonDecreasingTiersProgress` | pkg/fine/fine.go:67-104 | so are multipliers in non-decreasing list order with a tier at zero |
| `Violations.BaseTierNeeded` | pkg/fine/fine.go:129-139 | a publishable ruleset without a tier at zero on which paying one violation raises the next fine from 25.000 to 50.000 |
| `Violations.ColumnRepricesIff` | DESIGN.md:104-105 | the stored instant, read in UTC, gives back the priced time multiplier for every time rule Validate accepts if and only if the submitted hour equals the UTC hour |
| `Violations.OffsetChangesPrice` | pkg/fine/fine.go:87-93 | a time at UTC+7 that was priced as night and reads back as day under the day-one ruleset |
| `RuleVersions.OvertakenConflicts` | internal/rules/store.go:91-113 | a transaction meets a unique conflict at commit if and only if another commit took its number first |
| `RuleVersions.VersionsGapless` | internal/rules/schema.sql:4-13 | under every interleaving of publishers the committed numbers are exactly 1..n, exactly version n is active, and every stored ruleset is publishable |
| `RuleVersions.VersionsNeverChange` | internal/rules/store.go:77-78 | no run removes a committed version or changes its number, ruleset or author |
| `RuleVersions.VersionsAreSubmitted` | internal/rules/store.go:101-107 | every stored ruleset and author is as some publisher submitted it |
| `RuleVersions.BoundedStaleness` | internal/rules/service.go:40-53 | with an expiry, whatever Active obtains at time t is a committed version, unchanged, that was the active one at some instant of [t - ttl - lag, t], whatever readers, publishers, expiries and Redis failures interleave |
| `RuleVersions.StalenessBoundedIff` | internal/rules/cache.go:44-66 | some bound on staleness exists if and only if the configured TTL is positive |
| `RuleVersions.PublishAlone` | internal/rules/store.go:79-115 | a publish that nothing interrupts commits the next version, and is a run of the system |
| `RuleVersions.MissAlone` | internal/rules/service.go:44-52 | a read through an empty or expired cell answers the store's active version and fills the cell |
| `RuleVersions.HitAlone` | internal/rules/service.go:41-43 | a read of a live cell answers what was cached, without touching the expiry |
| `RuleVersions.FilledCellServes` | internal/rules/cache.go:44-56 | after a fill and any time, the next lookup is answered from the cell if and only if less than the TTL has passed, or the TTL is 0 |
| `RuleVersions.PublishIsSeen` | internal/rules/service.go:62-72 | an uninterrupted publish with Redis answering is what the next read answers, with its number one up, ruleset and author |
| `RuleVersions.ReadWithoutRedis` | internal/rules/service.go:40-53 | with Redis failing a read answers what the store answers, whatever the cell holds, and leaves the cell |
| `RulesService.MaxNumber` | internal/rules/store.go:92-95 | the highest number in the table, 0 for an empty one |
| `RulesService.Service.Draft` | internal/rules/store.go:85-109 | the transaction up to its commit: the next number, the active rows hidden, the new row, unless one of its statements fails |
| `RulesService.Service.StorePublish` | internal/rules/store.go:79-115 | writes the table an uninterrupted publish run leaves and returns the new active version, or, when any statement or the commit fails, changes nothing |
| `RulesService.Service.Publish` | internal/rules/service.go:62-72 | refuses exactly the rulesets Validate refuses; refused or failed it changes nothing; otherwise the store answers the new version, number one up, and the cell is dropped if Redis answers |
| `RulesService.Service.Seed` | internal/rules/service.go:27-37 | an empty table gets the day-one ruleset as version 1, any other is left alone; a failing count or publish is reported and changes nothing |
| `RulesService.Service.Active` | internal/rules/service.go:40-53 | what is answered and what the cell holds afterwards, for hit, miss, failing Redis, failing and empty store; a transparent cell stays transparent |
| `RulesService.SerialTransparency` | internal/rules/service.go:40-72 | over every serial sequence of reads, publishes and expiries the cached service answers exactly what an uncached one would |
| `Causality.InvStep` | internal/payment/service.go:75-125 | every step of every call, delivery or failure keeps the protocol's invariant |
| `Causality.PaidMeansSettled` | internal/payment/service.go:104-122 | in every reachable state, whatever was duplicated, reordered, lost or cut short, a violation marked paid has exactly one invoice, it is paid, and some payment paid exactly the fine |
| `Causality.MessagesAreTrue` | internal/payment/store.go:68-76 | every invoice carries its violation's data and fine, no violation has two, and every queued event agrees with the tables and names a payment on record |
| `Causality.PaidAnswerIsPermanent` | internal/payment/service.go:92-95 | once Pay has answered paid, every later read finds the invoice paid with the non-empty transaction of one of its payments, and no call started later charges or publishes |
| `Causality.LatestPaidIsPaid` | internal/payment/store.go:35-43 | the join over the payments yields the transaction of a successful payment of that invoice, if it has one |
| `Causality.LatestPaidIsLast` | internal/payment/store.go:39-43 | namely that of the last one |
| `Causality.NothingPaid` | internal/payment/store.go:39-43 | and nothing for an invoice without one |
| `Causality.NewRowsAreStamped` | internal/payment/store.go:68-76 | a new invoice is open, and it and a new payment event carry the time of their step |
| `Charging.ScenarioDecides` | internal/payment/service.go:76-78 | in every run a recorded payment succeeded exactly if its call asked for "success" and failed exactly if it asked for "failed"; any other call was turned away as invalid |
| `Charging.ChargesMatchCalls` | internal/payment/service.go:80-124 | in every run the successful payments of an invoice are as many as the calls that recorded one, and never more than the calls that read it as open |
| `Charging.ChargesBounded` | internal/payment/service.go:80-124 | from the moment the invoice is paid on, no further call reads it as open, and its payments never outnumber the calls that had |
| `Charging.SequentialChargesOnce` | internal/payment/service.go:80-124 | calls that do not overlap, none dying between recording and marking, collect the amount once if the invoice is paid and nothing otherwise |
| `PayRuns.PayThrough` | internal/payment/service.go:97-124 | a successful call from the lock to the release, as one run, and the state it leaves |
| `PayRuns.ChargedTwice` | internal/payment/service.go:72-102 | from every state with an open invoice and a free lock there is a run in which two calls both charge it |
| `PayRuns.DoublePayFlawless` | internal/payment/service.go:72-102 | nothing fails in that run and no time passes |
| `Overcharge.OverchargeIff` | internal/payment/service.go:80-119 | in every reachable state an invoice can collect a successful payment, whatever it has collected already, if and only if it is open and somebody owns it, or a successful call that read it as open has still to charge |
| `Overcharge.MarkFailsChargedTwice` | internal/payment/service.go:106-119 | from every state with an open invoice and a free lock, a call that fails to mark and, after its end, a flawless call both charge |
| `Overcharge.OpenInvoiceReachable` | internal/payment/service.go:51-60 | such states are reachable |
| `PayLocks.MutualExclusion` | internal/payment/service.go:97-102 | with Redis answering and holders within the TTL, at most one call per invoice is between lock and release, and the key there is live and its own |
| `PayLocks.ExclusiveIff` | internal/payment/service.go:129-143 | over all runs from the empty system whose holders stay within a bound, with Redis allowed to fail or not: two calls are never inside together if and only if the bound is at most 15 seconds and Redis never fails |
| `PayLocks.OwnKeyIff` | internal/payment/service.go:142 | over the same runs a release never deletes another call's live key if and only if the bound is at most 15 seconds, whether Redis fails or not |
| `PayLocks.FreeAfterCrash` | internal/payment/service.go:28 | in every run a dead call's key is gone within the TTL |
| `Quiescence.Conservation` | internal/payment/service.go:116-122 | after any run without lost publishes, with empty queues and no call running, violations and invoices correspond one to one with equal amounts and statuses, and issued and settled totals are equal |
| `Takings.CollectedIsCharges` | internal/payment/service.go:106-112 | in every run, whatever interleaves and fails, the sum of all successful payments is the sum over the invoices of how often each was paid times its amount |
| `Takings.MoneyAgrees` | internal/payment/service.go:104-122 | after any run of non-overlapping calls that finish what they record, without lost publishes, at quiescence the money collected, the paid invoices and the paid violations have equal totals |
| `Quiescence.DrainLength` | pkg/broker/broker.go:85-92 | a drain takes exactly one delivery per message it removes and per delivery that does not end in an ack |
| `Quiescence.DrainTerminates` | pkg/broker/broker.go:85-92 | a drain cannot go on exactly when both queues are empty, after messages plus failures many deliveries |
| `Quiescence.DrainProgress` | pkg/broker/broker.go:85-92 | as long as a message is queued, a delivery that ends in an ack is possible |
| `Quiescence.DeliveryKeeps` | pkg/broker/broker.go:85-92 | a failed delivery changes nothing, one without an ack keeps its message, an acked one takes one copy |
| `Confluence.DeliveriesConfluent` | internal/payment/store.go:68-76 | from equal tables and the same events, any two delivery schedules (order, duplicates, failures) that empty the queues end with equal violations, and equal invoices up to generated id and time |
| `Publication.InvoicedIffPublished` | internal/violation/service.go:133-134 | in every run, once the queue is empty, a violation has an invoice if and only if its one announcement was not lost |
| `PayCalls.PayIsRun` | internal/payment/service.go:75-125 | what Pay does, with every failure it handles, is a run of the settlement protocol |
| `PaymentService.PayKeepsInv` | internal/payment/service.go:75-125 | Pay keeps the protocol's invariant, and an answer of paid speaks of a paid invoice and a payment on record |
| `PaymentService.PayingAgain` | internal/payment/service.go:92-95 | paying a paid invoice writes nothing and publishes nothing; its owner is answered with the transaction of a payment on record |
| `PaymentService.Service.Pay` | internal/payment/service.go:75-125 | its answer and its effect on every table, key and queue are those of that run |
| `PaymentService.Service.Admit` | internal/payment/service.go:76-95 | a call goes on to the lock exactly if its scenario is known, the read works and the caller is the non-empty owner of an open invoice; forbidden exactly if the invoice is there and somebody else's; answered at once only by the owner of a paid one, with the transaction of a payment on record |
| `PaymentService.Service.ChargeInvoice` | internal/payment/service.go:97-124 | busy: nothing changes; otherwise what is recorded, marked, announced, answered and left in the lock, for every failure |
| `PaymentService.Service.AcquireLock` | internal/payment/service.go:129-143 | held exactly when Redis answers and no live key is there; an error lets the call in without a key to release, whether or not the command was carried out |
| `PaymentService.Service.CreateInvoiceFromEvent` | internal/payment/service.go:51-60 | the event's violation has an invoice afterwards, at most one, and an existing one is untouched |
| `PaymentService.Service.ConsumeCreated` | cmd/payment/main.go:59-72 | draining its queue, whatever the schedule, leaves every announced violation invoiced and existing invoices untouched |
| `ViolationService.Service.Create` | internal/violation/service.go:67-138 | a missing plate, place or time or an unknown type is refused; a created row carries the input, the owner, the version and, field by field, that version's price for the number of unpaid rows of the plate in the 90 days before; any failure changes nothing; with a publishable ruleset it succeeds exactly when no statement fails |
| `ViolationService.OtherPlatesDoNotMatter` | internal/violation/service.go:80-84 | violations of other plates do not affect what Create answers |
| `CreateRuns.CreateIsRun` | internal/violation/service.go:67-138 | what Create answers and writes, with every failure and whatever the rules service does meanwhile, is what a segment of a behaviour of the whole system ends with |
| `CreateRuns.CreatedRowRederives` | internal/violation/service.go:111-129 | the row it returns, in any reachable state, can be derived again from the rules table |
| `Issuance.BehaviourContinues` | internal/violation/service.go:67-138 | every such segment continues the behaviour it starts from |
| `ViolationService.Service.MarkViolationPaid` | internal/violation/service.go:160-162 | flips exactly that row, if it exists |
| `ViolationService.Service.ConsumeCompleted` | cmd/violation/main.go:67-79 | draining its queue, whatever the schedule, marks exactly the violations of the queued events paid |
| `ViolationService.Service.SeedPlate` | internal/violation/store.go:55-70 | a registered plate keeps its owner, an unregistered one gets the given one |
| `ViolationService.IssueIsRun` | internal/violation/service.go:129-134 | inserting a violation and announcing it, or failing to, is a run of the settlement protocol |
| `ViolationService.IssueKeepsInv` | internal/violation/service.go:129-134 | and keeps its invariant |
| `ViolationService.CompletedHandlerConfluent` | internal/violation/store.go:144-147 | handling payment events is idempotent and commutes |
| `ViolationService.CompletedConsumersAgree` | cmd/violation/main.go:67-79 | two consumers that handled the same payment events, in whatever order and however often, leave the same violations |
| `Broker.Exchange.Publish` | pkg/broker/broker.go:57-68 | each bound queue gets one copy and no other queue changes; with no queue bound the event is gone though the publish succeeds |
| `Broker.Exchange.Bind` | pkg/broker/broker.go:73-80 | declaring an existing queue keeps its messages |
| `Broker.Exchange.Consume` | pkg/broker/broker.go:85-92 | the loop empties the queue: each message acked once and handled at least once, nothing else handled, no more deliveries than messages and failures, and the state is the handled log folded |
| `Broker.FoldConfluent` | pkg/broker/broker.go:85-92 | consumers that handled the same messages, in whatever order and however often, agree, if handling is idempotent and commutes |
| `Issuance.Projections` | internal/violation/service.go:67-138 | a behaviour of the whole system, seen from the rules service or from the settlement tables, is a run of that side |
| `Issuance.SnapshotsPermanent` | internal/violation/store.go:83-97 | no later step changes a row but for its paid mark, or a committed version at all |
| `Issuance.OwnersPermanent` | internal/violation/store.go:55-60 | a registered plate keeps its owner |
| `Snapshots.FineExplained` | internal/violation/service.go:75-131 | every row on record, at every later time, comes from one Create with a valid input, whose count, assessment, owner lookup and insert are steps of the behaviour |
| `Snapshots.FinesRederivable` | internal/violation/service.go:75-131 | every fine on record can be derived again from the two tables: the version the row names is there with that number, and its base amount for the type, its multipliers for the time and the count, and their rounded product are the stored ones; it was active within the staleness bound; the stored count is the number of unpaid rows of that plate in the 90 days before, in a state between start and insert |
| `Snapshots.CollectedIsRederivable` | internal/violation/service.go:111-131 | a violation shown as paid was settled by a payment of exactly the amount its rule version gives |
| `Snapshots.PricingNeverFails` | internal/violation/service.go:84-95 | in every reachable state, pricing on a served ruleset succeeds, with positive base and multipliers |
| `Snapshots.NoNegativeAmounts` | internal/notification/service.go:25-52 | no event in a reachable state carries a negative amount |
| `Rupiah.Idr` | internal/notification/service.go:65-74 | the grouping loop yields the groups of three, counted from the right, joined by dots |
| `Rupiah.IdrRoundTrip` | internal/notification/service.go:64-74 | dropping "Rp " and the dots and reading the decimal gives the amount back, for every integer |
| `Rupiah.IdrInjective` | internal/notification/service.go:64-74 | different amounts are shown differently |
| `Rupiah.IdrDots` | internal/notification/service.go:64-74 | the text of any amount is "Rp " and then a dot exactly where the number of characters from there on is a multiple of four, digits elsewhere, and a minus sign in front exactly for a negative amount |
| `Rupiah.IdrShape` | internal/notification/service.go:64-74 | the text of a non-negative amount has a digit first, zero only for zero, dots exactly at those places, and digits everywhere else |
| `Rupiah.DigitCount` | internal/notification/service.go:66 | a positive number has as many digits as the power of ten above it says |
| `Rupiah.LoneSignIff` | internal/notification/service.go:68-71 | the text starts with "Rp -." if and only if the amount is negative and its digits are a multiple of three |
| `Notification.Service.HandleViolationCreated` | internal/notification/service.go:25-32 | one row for the owner, quoting type, plate and amount, none for an unregistered plate |
| `Notification.Service.HandlePaymentCompleted` | internal/notification/service.go:36-52 | first the owner is told what was paid and in which transaction, then the officer for which plate and how much; a failed insert stops it and leaves what was written |
| `Notification.OwnerIsTold` | internal/notification/service.go:37-43 | one row, to the owner, with the amount, which can be read back, and the transaction; none without an address |
| `Notification.OfficerIsTold` | internal/notification/service.go:44-50 | one row, to the officer, with the plate and the amount; none without an address |
| `Notification.IssuedIsTold` | internal/notification/service.go:29-31 | the row of an issued violation quotes its type, plate and amount |
| `Notification.TextsDiffer` | internal/notification/service.go:38-46 | the owner's text begins "Your payment", the officer's "A fine you issued": neither is the other's |
| `Notification.Humanize` | internal/notification/service.go:60-62 | every underscore becomes a blank, and every other character stays where it was |
| `Redelivery.BothAreTold` | internal/notification/service.go:36-52 | in every run, for a message with two distinct recipients: the owner is told at least as often as the officer, nobody more often than it was delivered, and both at least once when it is acked |
| `Redelivery.HandlerIsRun` | internal/notification/service.go:36-52 | an uninterrupted delivery writes what the handler writes and is acked exactly if the handler succeeds |

## Left out

- The web front end, the gateway, identity and roles, photos and MinIO, HTTP handlers, configuration, logging and connection retries: wrappers, or decisions settled by one branch.
- The `List` and `Get` queries of the services, which copy rows out, and `Service.Get`'s visibility check.
- JSON and JSONB encoding: messages and rulesets are values, so a message no handler can decode, which is requeued forever, does not occur.
- A handler is assumed to fail only finitely often on a message; `Broker.Exchange.Consume` takes the failures as a list.
- SQL, Redis and RabbitMQ themselves: each statement is one atomic step, each table a map with its unique constraints. A publishing transaction sees a snapshot and its conflicts show at commit; row locks that make a second one wait are not modelled. HTTP timeouts appear as calls that die.
- UUIDs and transaction ids: fresh numbers for rows, and for a transaction any string behind "txn_".
- A missing Redis client or broker is Redis, or every publish, failing.
- Wall-clock time: one clock in milliseconds that never runs backwards, shared by all services; columns keep it without loss. `RuleVersions.BoundedStaleness` takes the longest time from a store read to the cache fill as a parameter.
- `created_at` order: the latest successful payment is the one inserted last.
- Float64.NearestIsNearest: exponents are unbounded, so overflow, subnormals, infinities and NaN do not occur; nor does int64 overflow of an amount.
- Fine.PriceWithinOne: bases up to 2^53 and exact products up to 2^50 only; beyond that the spacing of binary64 numbers allows larger errors.
- PayLocks.MutualExclusion: assumes that every holder finishes within the TTL and that Redis answers; `PayLocks.ExclusiveIff` shows that neither can be dropped.
- Charging.SequentialChargesOnce: a call that dies between recording a payment and marking the invoice is excluded, because the next call then charges again (`Overcharge.MarkFailsChargedTwice`).
- PaymentService.Service.Pay: the class runs one call at a time; interleaved calls are the protocol's.
- Redelivery.BothAreTold: a message whose owner and officer share one address is not counted, because its rows cannot be told apart.
