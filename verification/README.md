# A till that goes offline

The system is a point-of-sale till that keeps selling with the network unplugged. Sales, stock
movements and shift events are written to a local database together with a row of an outbox; a
pusher drains that outbox to the cloud when it can, and a puller copies reference data back. This
project models that till and proves what it is built for.

Two state machines carry most of it.

**Terminal and cloud.** `SyncStore` has the terminal's tables, the cloud's tables and every atomic
step that changes them: one committed local transaction or one committed request each, so a process
killed anywhere leaves the state some prefix of its steps reached. The server is an arbitrary
`accepts` predicate over its own state: it applies a batch whole or not at all, and an item it
already holds is a no-op. Acknowledgements may be lost after the server commits. `SyncSafety`,
`Stock` and `Inventory` prove what every run keeps, with crashes, lost answers, quarantines and
manual retries anywhere in it. `OutboxRepository`, `Pusher` and `Engine` are the classes that take
those steps, each method proved equal to the steps it takes; `Queue` holds the reference the drain
refines, every row sent alone in order. `Keyset`, `Puller`, `Prices` and `Levels` are the other
direction: the page filter, the paging loop killed between any two writes, the price the till ends
up charging, and the stock levels it ends up with.

**The register's money.** `Pricing`, `Cart`, `Payments` and `Register` go from a line to a settled
balance; `Counter` is the open cart as the services change it; `Sales` and `Receipts` are the rows a
sale posts, the receipt built from the cart and the one rebuilt from the rows; `Shift`,
`ShiftService`, `Drawer` and `DayClose` are the Z-report, the coins it has to explain, and the one
from the rows of the other. `Allocation`, `Tax` and
`Money` are the arithmetic underneath.

`Barcode`, `Lockout` and `Overrides` stand on their own. `Lists`, `Lex` and `Wrappers` are shared.

Conventions: money is whole paise, quantities whole thousandths, ids natural numbers, times whole
seconds (or opaque ordered integers), all unbounded. Decimal arithmetic is exact integer arithmetic,
which is what the original's decimals are as long as a product fits in 28 significant digits. Ids
that the original draws at random are parameters required to be new.

## What the code does that its comments do not say

The model follows the code. Where the two part, there is a lemma for the difference.

- An UNKNOWN payment attempt does not let a sale post: `Counter.Post` refuses an unsettled one
  whatever its attempts say. A sale posted for review is therefore paid, and its cash is left out of
  the expected drawer until a supervisor says `paid`: the `Disputed` term of `Drawer.DrawerConservation`.
- Choosing cash on a balance under fifty paise, nothing at all included, is refused with nothing left
  to pay, but the rounding stays on the cart: `Register.RefusedCashLeavesRounding`. It is then used on
  whatever the basket becomes, so the cash asked for next need not be a whole rupee:
  `Register.CashAskedWhole`, `Register.StaleRoundingIsReused`.
- `allocate` truncates toward zero, so for a negative amount the remainders are negative and the
  *least* cut share is charged first. `AllocationLaws.OptimalIff` and `FloorOrCeiling` give the exact
  conditions under which the split is still the closest one and every part the floor or ceiling of its
  share, `WithinOnePaisa` what remains true at either sign, and `WeightlessCharged` when a line of no
  weight is charged; `NegativeChargesZeroWeight` is a refund of one paisa that does it.
- A promotion added after a manual percentage changes what that took, so it may come off by less than
  its face value: `Pricing.FaceValueComesOff` says exactly when, and `LatePromotionJumpsTheQueue` is a line
  on which it does. No route builds that input: app/api/register.py:320-326 sends only `fixed` and
  `manual`, and a promotion becomes a discount only inside app/domain/promotions.py.
- The refusal of an oversized reduction looks at the kind `fixed`, which the register's route sends and
  the type does not declare; a declared `amount` of any size is accepted, and takes what there is.
  `Register.AcceptedDiscountIsExact` has the exact condition at every kind but a percentage and
  `OversizedAmountIsAccepted` an input. No route sends an `amount`.
- Nothing checks that the cash handed over is what was asked for, nor that a discarded cart has none in
  it (app/api/register.py:372-377 and 400-418): the `Short` and `abandoned` terms of
  `Drawer.DrawerConservation`. `Drawer.HonestShift` is what is left when nobody slips.
- A reprint carries the time the cart was opened where the original carried the time of posting, and
  has lost the change. Its GST block is the original's exactly when every line has a tax code, and a
  line without one can make it be refused: `Receipts.ReprintAgrees`, `Receipts.ReprintRefusedOverCodes`.
- `undelivered_sales` never undercounts, and overcounts by exactly what `SyncSafety.NeverUndercounts`
  says: it counts failures already acknowledged by a retry. `RetriedCountsTwice` is a run that does it.
- A drain stopped in the middle of an isolation has done more than it reports, by the rows that
  isolation had dealt with: `Pusher.Pusher.Drain` returns the difference.
- A pull with no token returns as a pull that found nothing new, so a signed-out till with an empty
  queue reports itself online with a fresh pull, having asked nobody anything: `Puller.Puller.Pull`,
  `Engine.SyncEngine.Cycle`.
- `InventoryService.count` reads the shelves before its write transaction opens, so the correction is
  relative to the earlier reading. Sales in between are not reversed by that
  (`Inventory.CountWithSalesBetween`), but an acknowledgement or a pull in between puts the belief off
  by exactly what `Inventory.CountWithAnythingBetween` says, until the next pull;
  `Inventory.TruthAfterCount` is what it then comes to.
- A count or an adjustment of a product that is there but has no open price is refused as one of a
  product withdrawn: `Inventory.InventoryService.ReadCount`.
- A bare-timestamp cursor from an older build does not correct itself on the next page: rows that
  share its watermark are never fetched: `Puller.BareCursorSkipsTies`.
- At the cap a PIN can be tried once an hour, not five times: every failure from the fifth on locks,
  where `guesses_per_hour` counts five free guesses a batch: `Lockout.GuessingBoundIsTight`.
- A grant that names no approver is credited to the approver of an earlier grant of the same key, while
  that one is live and, if nothing has pruned it since, after it has lapsed too: `Overrides.NamesLatestGranter` has the exact condition and
  `UnnamedGrantMiscredited` a history. The one caller, app/services/auth_service.py:833-835, always
  names an approver, so only the default `approver_id=None` can bring it about.

## Model

| member | source | states |
|---|---|---|
| SyncSafety.StepKeeps | app/data/repositories/outbox.py:71-193 | every step of the terminal, the server and the operator keeps: ids and sequence numbers in order, one owner per ledger delta, the cloud's levels equal to deltas counted once, and nothing acknowledged that is neither in the cloud nor set aside |
| SyncSafety.NothingLost | app/sync/pusher.py:227-257 | in every state any run reaches, a row is queued, in the cloud, or has an unacknowledged failure |
| SyncSafety.OneEnvelope | app/sync/payloads.py:125-182 | a ledger delta is selected into exactly one envelope, whatever has been sent, lost or retried |
| SyncSafety.CountedOnce | app/sync/pusher.py:194-201 | a delta moves the cloud's stock once if its record landed and not at all otherwise, so sending it again moves nothing |
| SyncSafety.NeverUndercounts | app/data/repositories/shifts.py:217-239 | waiting plus quarantined is the missing sales of a shift, plus those that are both, each put back by an acknowledged retry, plus those the cloud already holds |
| SyncSafety.RetriedCountsTwice | app/data/repositories/shifts.py:226-239 | a run after which one missing sale is counted as two |
| SyncSafety.CausalDelivery | app/data/repositories/outbox.py:58-69 | draining without manual retry keeps: no record is in the cloud ahead of an earlier one that was not set aside |
| SyncSafety.ParentsFirst | app/data/repositories/shifts.py:71-89 | the same by `client_seq`, which is the order of outbox ids: a shift is in the cloud ahead of any sale of it |
| SyncStore.CrashIsPrefix | app/sync/pusher.py:248-257 | a process killed after any of its writes leaves a state its steps pass through |
| Queue.WholeBatch | app/sync/pusher.py:227-231 | a batch the server takes whole comes to what each of its rows sent alone comes to |
| Queue.RefusedFirst | app/sync/pusher.py:248-257 | a row refused alone changes nothing for the rows behind it |
| Queue.UnbuiltFirst | app/sync/pusher.py:127-139 | setting aside first what cannot be built refuses exactly those rows and changes nothing else |
| OutboxRepository.OutboxRepository.NextPending | app/data/repositories/outbox.py:58-69 | the oldest unsent rows, no more than asked for |
| OutboxRepository.OutboxRepository.MarkSynced | app/data/repositories/outbox.py:71-85 | exactly the named rows leave the queue; every row keeps its record, its number and its attempts |
| OutboxRepository.OutboxRepository.RecordAttempt | app/data/repositories/outbox.py:87-96 | the queue is what it was, in the same order; one more attempt on exactly the named rows |
| OutboxRepository.OutboxRepository.Quarantine | app/data/repositories/outbox.py:98-137 | one failure per row and the rows out of the queue, in one transaction |
| OutboxRepository.OutboxRepository.RetryFailures | app/data/repositories/outbox.py:141-193 | requeues the row behind every chosen open failure, acknowledges exactly those failures, and counts the rows that moved |
| Pusher.RemoteCloud.Post | app/sync/pusher.py:292-346 | only an accepted batch or a lost answer changes the cloud, and then by the whole batch; which answers are transient, permanent, too old or unauthorised |
| Pusher.Pusher.ResendOne | app/sync/pusher.py:248-257 | one row alone is marked, set aside, or left as it was, and on a fair network stays on course with the reference |
| Pusher.Pusher.Isolate | app/sync/pusher.py:233-257 | every row of a refused batch gets its own verdict; stopped early, what it did is a prefix and the rest is still queued |
| Pusher.Pusher.SendBatch | app/sync/pusher.py:141-231 | one batch and its answer: accepted, deferred, refreshed once, set aside, or isolated, with what it reports against what it did; stopped by its own answer it did nothing |
| Pusher.Pusher.Drain | app/sync/pusher.py:115-231 | terminates; every write is a step in order; every row dealt with is reported but those of a batch refused whole in whose rows it was stopped; unstopped it empties the queue; with no network fault it comes to the cloud state and the refusals of sending every row alone, at any batch size |
| Stock.StockAgreement | app/data/repositories/inventory.py:125-178 | truth minus `on_hand` is what landed since the last pull, plus what is absent, minus what was counted while its answer was lost, plus what other tills moved since |
| Stock.SettledAgreement | app/data/repositories/inventory.py:125-149 | with the queue empty and the cloud's level in hand, only the absent deltas are missing |
| Stock.AbsentIsReported | app/data/repositories/outbox.py:98-137 | an absent delta's record stands in the failures list |
| Levels.TurnKeeps | supabase/migrations/0001_core.sql:324-342 | every change of the cloud's levels dates those it touches after all before, and that and every pull, however it ends, keep: the till's row of each product is the cloud's unless that one lies after the cursor |
| Levels.LevelsAgree | app/data/repositories/inventory.py:125-178 | over every run of both, the truth differs from the paged level plus the pending deltas by the four terms; once a pull has completed since, with nothing queued, for every product by the absent deltas alone |
| Levels.TriggerEvolves | supabase/migrations/0001_core.sql:324-342 | dating the levels an insert touched, and no others, by a later time is a change those results allow |
| Levels.TakenExactly | app/sync/puller.py:171-206 | whatever the dates, a completed pull leaves the till the cloud's row of a product if and only if it had it already or the row lay beyond the cursor |
| Levels.TableExists | app/sync/puller.py:91-108 | whatever the levels and their dates, there is a table that serves them in order, so the two results above are of something |
| Engine.SyncEngine.Push | app/sync/engine.py:182-204 | online unless the drain was stopped; no level moves on the till |
| Engine.SyncEngine.Pull | app/sync/engine.py:206-226 | online, with a time, just when every table's pull returned; with a token for the last fetch and nothing queued every product agrees |
| Engine.SyncEngine.Cycle | app/sync/engine.py:135-226 | pulls only when the drain was not stopped; online just when every pull returned; then the queue is empty and, if the last fetch had a token, every product there is falls short of the truth by exactly the absent deltas; signed out with nothing to send it goes online having changed nothing |
| Inventory.InventoryRepository.Record | app/data/repositories/inventory.py:37-123 | one ledger row and one outbox row for each movement, numbered from the shared counter; a sale's reference type is refused and writes nothing |
| Inventory.InventoryService.Receive | app/services/inventory_service.py:94-105 | every line of a delivery recorded, or for none, or one with no packs or no pack size, nothing |
| Inventory.InventoryService.Adjust | app/services/inventory_service.py:143-180 | one correction of a product that can be sold, with a reason and a size, and otherwise the first refusal and nothing written |
| Inventory.DeliveryLands | app/domain/receiving.py:70-95 | a delivery raises the belief by exactly the units delivered of each product |
| Inventory.InventoryService.ReadCount | app/services/inventory_service.py:109-133 | refused for the first product that cannot be sold before any shelf is read, then for a negative count; otherwise the correction for each product against its own reading, skipping the ones that agree |
| Inventory.InventoryService.WriteCount | app/services/inventory_service.py:134-141 | the corrections, recorded as one document |
| Inventory.CountLands | app/services/inventory_service.py:109-141 | a count leaves the belief at the counted figure plus what the belief differs by from what was read of that shelf |
| Inventory.CountWithSalesBetween | app/services/inventory_service.py:112-114 | documents written in between are added to the counted figure, not reversed |
| Inventory.CountWithAnythingBetween | app/data/repositories/inventory.py:125-178 | with sends, pulls, failures and other tills in between, and between the two queries of one reading, the exact figure the belief is left at |
| Inventory.TruthAfterCount | app/services/inventory_service.py:109-141 | the truth a count leaves is the counted figure, what moved since the reading, and what the reading was short by: nothing else that happened in between matters once all is sent and pulled |
| Keyset.KeysetFilter | app/sync/puller.py:290-312 | for any number of tiebreaks the built filter selects exactly the rows lexicographically after the position |
| Puller.Puller.Write | app/sync/puller.py:241-257 | every row of the page is stored under its local key, and no other key changes |
| Puller.Puller.Fetch | app/sync/puller.py:208-239 | the next rows of the table in order, cut at the page size; without a token no rows |
| Puller.PositionOf | app/sync/puller.py:315-327 | the position of a keyed row is usable and compares as the row's whole key |
| Puller.Puller.Pull | app/sync/puller.py:171-206 | terminates, never stalls, stores all it passes however it is cut short; having returned it leaves nothing beyond the cursor unless the fetch it ended on had no token; with none from the start it changes nothing and returns |
| Puller.KeysetPullIsComplete | app/sync/puller.py:259-282 | over a fixed table, after any number of killed pulls and a completed one, exactly the rows after the first cursor have been stored |
| Puller.BareCursorSkipsTies | app/sync/puller.py:299-303 | from a bare watermark a completed run stores exactly the rows with a greater one |
| Prices.AdminService.SetPrice | app/services/admin_service.py:609-649 | cut off halfway or not, the cloud charges the new price for the product and what it did for every other; carried through, no other price of the product is open |
| Prices.StartingPoint | app/sync/puller.py:137-151 | a till that has never pulled, before an empty table, is where a run may start |
| Prices.StepKeeps | app/sync/puller.py:85-89 | price changes and pulls keep: the newest price of a product is open, and the till's rows are the cloud's but for closings it has not heard of |
| Prices.TillChargesCloudPrice | app/data/repositories/catalog.py:46-64 | whenever a pull has completed since, the till's newest open price is the cloud's, though closings are never pulled |
| Money.RoundIsRounded | app/domain/money.py:162-193 | rounding gives a nearest integer, away from zero on a tie, at either sign |
| Money.RoundedUnique | app/domain/money.py:162-169 | and there is only one |
| Allocation.Allocate | app/domain/money.py:196-235 | the largest-remainder split, the first line taking all when nothing weighs, and the two refusals |
| AllocationLaws.PartsSumToWhole | app/domain/money.py:226-235 | the parts add up to the amount at either sign |
| AllocationLaws.SharesUnique | app/domain/money.py:225-235 | the split is determined, ties going to the earlier line |
| AllocationLaws.WithinOnePaisa | app/domain/money.py:218-235 | at either sign no part is out by more than a paisa, and by a whole one exactly when a share that divides evenly is topped up |
| AllocationLaws.FloorOrCeiling | app/domain/money.py:218-235 | every part is the floor or ceiling of its exact share if and only if the amount is not negative, nothing is left over, or no share divides evenly |
| AllocationLaws.LargerRemainderWins | app/domain/money.py:231-233 | whoever was cut more is topped up first |
| AllocationLaws.OptimalIff | app/domain/money.py:196-235 | no other split with the same sum is closer, if and only if the amount is not negative or all were cut alike |
| AllocationLaws.WeightlessCharged | app/domain/money.py:218-235 | no weight gets nothing of an amount of money; of a refund it is charged a paisa exactly when fewer earlier lines divide evenly than there are paise left over |
| Tax.TaxIsRounded | app/domain/tax.py:76-90 | the extracted tax is the rounded share of an inclusive price, between nothing and the whole |
| Tax.SplitCgstSgst | app/domain/tax.py:114-122 | the halves sum to the tax, the odd paisa going to the first |
| Tax.ComponentFor | app/domain/tax.py:125-136 | a row's base and tax make its gross and its halves its tax |
| Tax.Breakdown | app/domain/tax.py:139-163 | one row per code, taxed once on its total, in order of rate then code; refused exactly when a code has two rates |
| TaxLaws.BreakdownUnique | app/domain/tax.py:139-163 | a basket has one GST block |
| TaxLaws.OrderDoesNotMatter | app/domain/tax.py:148-163 | any reordering of the lines gives the same block or the same refusal |
| TaxLaws.BlockConserves | app/domain/tax.py:139-171 | bases and taxes make the basket's gross |
| TaxLaws.GroupingMovesLittle | app/domain/tax.py:142-146 | grouping first moves the tax by at most half a paisa a line and half a paisa a row |
| Pricing.PriceLine | app/domain/pricing.py:121-165 | the discounts in order, each capped at what is left, and the tax on the rest |
| Pricing.LineBounds | app/domain/pricing.py:121-165 | a sold line's total lies between nothing and its gross; applied amounts are positive and account for the difference |
| Pricing.OrderOfArrival | app/domain/pricing.py:168-178 | the price depends only on promotions-then-manual |
| Pricing.ManualComesOffWhatIsShown | app/domain/pricing.py:168-178 | a manual discount comes off the total last shown, at face value when it fits |
| Pricing.FaceValueComesOff | app/domain/pricing.py:121-178 | a discount of any kind but a percentage, however large, never takes more than its face value off the total shown, and takes it whole if and only if it fits and is manual or no manual percentage on the line moves under it |
| Pricing.NoPercentageIsExact | app/domain/pricing.py:168-178 | so with no manual percentage on the line a face value of either source comes off whole if and only if it fits |
| Cart.PerformKeeps | app/domain/cart.py:36-156 | every operation keeps numbers ascending and below the next, and every line priced from its input |
| Cart.NumbersAreNotReused | app/domain/cart.py:55-118 | a voided line's number never names a line again |
| Cart.MergeConservesUnits | app/domain/cart.py:55-109 | scanning a thing again adds its quantity to the one line that has it, with no discounts involved |
| Cart.TotalsAgree | app/domain/cart.py:174-199 | subtotal less discounts is the total |
| Payments.RoundingBound | app/domain/tender.py:59-87 | cash rounds to a whole rupee, by at most fifty paise, and up on a tie |
| Counter.OpenCart.Expire | app/services/cart_service.py:125-159 | a lookup times out exactly the overdue pending attempts, leaves none overdue, and moves neither what is owed nor what was approved |
| Counter.OpenCart.TakePayment | app/services/sale_service.py:84-124 | the whole new cart, for each of the refusals and for each means of payment |
| Counter.OpenCart.Settle | app/services/sale_service.py:128-198 | an attempt attested, given up or marked unknown: the whole new cart or the refusal |
| Counter.OpenCart.Change | app/services/cart_service.py:286-362 | a change to the basket: refused while money is approved or pending, or when a reduction exceeds its line |
| Counter.OpenCart.ChangeFor | app/services/sale_service.py:200-229 | cash surplus plus what was collected beyond the balance |
| Counter.Post | app/services/sale_service.py:233-277 | posts a settled cart whole on an open shift, as the one step the sync machine has for it, and otherwise changes nothing |
| Register.AcceptedDiscountIsExact | app/services/cart_service.py:318-344 | an accepted reduction of any kind but a percentage takes its face value off the basket's total under exactly that condition and never more; one is refused for its size if and only if it is `fixed`, larger than its line, and the basket open |
| Register.OversizedAmountIsAccepted | app/services/cart_service.py:338-344 | fifteen rupees off a line of ten: refused as `fixed`, accepted as `amount` and ten taken |
| Register.ActKeeps | app/services/cart_service.py:346-374 | every operation keeps the adjustment within fifty paise, approved attempts as they were, and a locked basket as it was |
| Register.BalanceLoop | app/services/sale_service.py:84-198 | so does every run on a cart: approved attempts never change, the basket never moves once money is approved, and at most one attempt is cash |
| Register.CashSettlesForGood | app/domain/payments.py:71-92 | a cash attempt leaves the cart settled in every later state |
| Register.PostingBalances | app/services/sale_service.py:200-229 | what was handed over and attested less the change is the rounded total if and only if the cash covered what was asked, and otherwise short by the difference |
| Register.RefusedCashLeavesRounding | app/services/sale_service.py:103-108 | a refusal of cash leaves a rounding behind if and only if there was none and the balance is from nothing to forty-nine paise |
| Register.CashAskedWhole | app/services/sale_service.py:103-116 | cash is asked for in whole rupees if and only if its rounding is made there and then, or the balance has moved by whole rupees since it was |
| Register.StaleRoundingIsReused | app/services/sale_service.py:103-116 | after such a refusal, in every cart any run then makes of it, cash asked for is the balance of the moment less the one refused |
| Sales.SalesRepository.PostSale | app/data/repositories/sales.py:46-262 | the sale, its lines, attempts, payments and audit row, and to the sync machine exactly the step that posts a sale with its own new ledger rows; for a posted id nothing |
| Sales.PostedBalances | app/data/repositories/sales.py:362-393 | the rows a cart posts add up if and only if it was settled |
| Sales.StockLeaves | app/data/repositories/sales.py:124-165 | a sale moves exactly what it sold of each tracked product and nothing of any other |
| Receipts.BuildReceipt | app/services/sale_service.py:379-440 | refused only over mixed rates; the refusal of a receipt that does not reconcile is unreachable |
| Receipts.ReceiptForSale | app/services/sale_service.py:294-369 | rebuilt from any stored rows, exactly when they are there, have one rate a code and agree with each other |
| Receipts.PostStores | app/data/repositories/sales.py:266-278 | what a reprint reads back is what the sale posted, and later sales leave it alone |
| Receipts.ReprintAgrees | app/services/sale_service.py:294-369 | the reprint is the original but for its date, its mark and the change; same GST block if and only if every line has a code |
| Receipts.ReprintRefusedOverCodes | app/services/sale_service.py:316-328 | the exact condition on tax codes under which a posted sale can be reprinted |
| Shift.Compute | app/domain/shift.py:109-187 | the figures as sums over counting sales, refused exactly for a row the report cannot place |
| Shift.ByIdDistinct | app/domain/shift.py:133-134 | distinct sale ids make the dictionary the table |
| ShiftService.ShiftService.Queue | app/data/repositories/shifts.py:356-385 | one row under the shared number: exactly the sync machine's step that queues a document |
| ShiftService.ShiftService.Open | app/services/shift_service.py:72-87 | one open shift at a time, queued at once |
| ShiftService.ShiftService.MoveCash | app/services/shift_service.py:91-121 | refused without an amount above zero, a direction or a reason; otherwise put on the open shift |
| ShiftService.ShiftService.ResolveReview | app/api/register.py:602-650 | refused for a sale that is not stored, not awaiting review, or already reviewed; one review a sale; no stored close changes |
| ShiftService.ShiftService.CloseShift | app/services/shift_service.py:139-164 | stores the figures the posted rows come to at that moment with the count, and closes the shift, once; refused exactly when the report is |
| Drawer.EventMovesCash | app/services/sale_service.py:110-124 | the cash an event brings in is the cash its attempts come to hold, and nothing else moves any |
| Drawer.OpeningConserved | app/services/shift_service.py:72-87 | a shift opened with its float in the drawer is where a run may start |
| Drawer.StepKeeps | app/services/shift_service.py:91-121 | every step the till accepts keeps the drawer equal to float, movements, cash of carts open and discarded, and sales' net cash |
| Drawer.DrawerConservation | app/domain/shift.py:96-187 | over every run the drawer is what is expected, plus the cash of carts open and discarded, plus net cash of sales that do not count, minus change given back for overpaid ones, minus what was handed short; zero variance if and only if those cancel |
| Drawer.HonestShift | app/services/sale_service.py:110-124 | with enough handed over each time and discarded carts emptied, only the cash of open carts, the disputed sales and the change given back part the drawer from the report |
| DayClose.StepTells | app/data/repositories/shifts.py:138-190 | every step of a shift, written to the tables as posting, reviewing and moving cash write it, keeps what the close's queries read equal to what the shift is |
| DayClose.OpenedSound | app/data/repositories/shifts.py:138-190 | a shift just opened, over whatever rows earlier ones left, is where that starts |
| DayClose.StoredVariance | app/services/shift_service.py:139-164 | over every run the close is not refused, and the variance it stores over an honest count is those terms |
| Drawer.AlwaysReportable | app/domain/shift.py:139-153 | no run writes a row the report refuses |
| Drawer.TakingsExplained | app/domain/shift.py:99-102 | takings are the counting sales' totals and what was transferred over them |
| Barcode.CheckDigit | app/domain/barcode.py:62-74 | a digit bringing the weighted sum to a multiple of ten, refused for anything not numeric |
| Barcode.IsValidGtin | app/domain/barcode.py:82-85 | the right length, numeric, and weighing a multiple of ten |
| Barcode.SingleErrorCaught | app/domain/barcode.py:62-74 | every single-digit error is caught, at any length (section 7.9 of the GS1 General Specifications) |
| Barcode.SwapMissed | app/domain/barcode.py:62-74 | swapping neighbours is missed if and only if they are equal or differ by five |
| Barcode.TypoRefused | app/domain/barcode.py:148-177 | a valid code with one digit mistyped is refused, never read as anything |
| Barcode.WeighedRoundTrip | app/domain/barcode.py:339-375 | a weighed code reads back as its item and its quantity |
| Barcode.WeighedIsOurs | app/domain/barcode.py:210-227 | a weighed code that reads is the one this till would have made |
| Barcode.InternalRoundTrip | app/domain/barcode.py:378-387 | an internal code reads back as itself and carries its number |
| Lockout.CachedUser.VerifyPin | app/services/auth_service.py:420-488 | a locked account refuses even the right PIN; a right one forgets the wrong ones; a wrong one counts and locks |
| Lockout.CachedUser.RecordPinFailure | app/data/repositories/users.py:225-254 | counter and lock move together |
| Lockout.LockoutShape | app/domain/lockout.py:61-81 | nothing, then fifteen minutes, thirty, and an hour for ever |
| Lockout.LockoutMonotone | app/domain/lockout.py:61-81 | the lock never shortens with the count nor exceeds an hour |
| Lockout.GuessingIsSlow | app/domain/lockout.py:61-98 | from an account in any state, checked wrong PINs are as far apart as the locks between them: fifteen or more span 225 minutes and an hour each after that, however they are timed |
| Lockout.GuessingBoundIsTight | app/domain/lockout.py:101-117 | and somebody patient meets that bound exactly |
| Overrides.SessionStore.Grant | app/services/auth_service.py:197-269 | the three refusals, and the whole new session |
| Overrides.MapRefinesHistory | app/domain/identity.py:91-111 | the pruned map allows a key exactly when the full history does |
| Overrides.NeverShortens | app/services/auth_service.py:257-261 | no grant shortens an open window |
| Overrides.NamesLatestGranter | app/domain/identity.py:113-125 | a live grant names whoever granted last if and only if that grant names somebody or no earlier name survives; and otherwise the last name that survives |
| Overrides.NobodyNamedOtherwise | app/domain/identity.py:113-125 | a key held outright, or with no live grant, names nobody |

## Left out

- HTTP, the routers, the events socket, the user interface and all rendering: only the outcomes of a request remain (accepted, transient, unauthorised, too old, permanent).
- The server's SQL and row-level security: an arbitrary predicate decides what is accepted; a batch is atomic and an id already held is a no-op.
- Clocks: one operation uses one reading of the time, where the original reads it again for each expiry inside the operation.
- Backoff, error texts, sign-in refresh beyond its three outcomes, and the status fields of the engine other than `online`.
- Password hashing, sealing, tokens and the cloud's own PIN check: whether a PIN is right is a parameter, and failures counted for a cloud refusal take the same step.
- The audit rows inside transactions but a sale's own, those inside envelopes, receipt numbers, user names, references and notes on payments. A sale's envelope can therefore grow by a later audit row in the original and not here.
- Tax codes carry no name and no inclusive flag; prices are always inclusive, as the pricing path has them.
- Barcodes of the GS1-128 form are recognised and not parsed further; surrounding space is taken to be stripped, and a digit is one of the ten ASCII ones.
- Carts and attempts that do not exist, and the two providers refusing each other's attempts, which the register cannot send.
- The catalogue apart from the newest-open-price rule, search, unlisted items, and every report and administration call but the price change.
- Revocation sweeps and the cached identity's own expiry; `Overrides` takes the moment the snapshot lapses as part of the session.
- The order of payments on a reprint is the order they were stored in; the query itself asks for none.
- Keyset.KeysetFilter: values are compared as integers, standing for the server's own order on timestamps and ids.
- Puller.Puller.Pull: one table that does not change during the run (a change between two pages is a pull cut there and another from the same cursor, which `Levels` covers); unique columns other than the local key, which a replacing insert would also clear, are not modelled.
- Levels.TurnKeeps: one store, no reorder points, and a clock that dates each change of a level after those already served; a transaction that began before a pull and commits after it would be dated too early, and `Levels.TakenExactly` is what then becomes of its levels.
- Prices.TillChargesCloudPrice: one store and strictly increasing `valid_from`, which the server's clock is taken to give.
- Drawer.DrawerConservation: one shift at a time; a cart carried over from the shift before enters as cash already in its carts, and coins given back with a discarded cart are a parameter.
- ShiftService.ShiftService.MoveCash: the reason arrives with surrounding space removed.
- Inventory.InventoryService.Adjust: so does the note.
